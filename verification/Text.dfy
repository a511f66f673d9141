/** Small text vocabulary shared by the models. A C++ `std::string` is a Dafny `string` whose characters
    stand for bytes; the code points above 255 never occur in the source and every check below rejects them. */
module Text {
  datatype Option<+T> = None | Some(value: T)

  /** `Number.MAX_SAFE_INTEGER`. */
  const MAX_SAFE_INTEGER := 0x1F_FFFF_FFFF_FFFF

  predicate IsLowerHex(c: char) {
    '0' <= c <= '9' || 'a' <= c <= 'f'
  }

  /** `isV2Sha256`: exactly 64 lower-case hexadecimal digits. */
  predicate IsSha256(s: string) {
    |s| == 64 && forall i | 0 <= i < |s| :: IsLowerHex(s[i])
  }

  predicate IsAlphanumeric(c: char) {
    'a' <= c <= 'z' || 'A' <= c <= 'Z' || '0' <= c <= '9'
  }

  predicate IsIdentifierChar(c: char) {
    IsAlphanumeric(c) || c == '.' || c == '_' || c == ':' || c == '-'
  }

  /** `isV2StableIdentifier(value, false)`. */
  predicate IsStableIdentifier(s: string) {
    0 < |s| <= 256 && IsAlphanumeric(s[0]) && forall i | 0 <= i < |s| :: IsIdentifierChar(s[i])
  }

  /** The least index at or after `from` that holds `c`: `std::string::find`. */
  function Find(s: string, c: char, from: nat): (r: Option<nat>)
    requires from <= |s|
    ensures r.Some? ==> from <= r.value < |s| && s[r.value] == c && forall i | from <= i < r.value :: s[i] != c
    ensures r.None? ==> forall i | from <= i < |s| :: s[i] != c
    decreases |s| - from
  {
    if from == |s| then None
    else if s[from] == c then Some(from)
    else Find(s, c, from + 1)
  }

  function FoldChar(c: char): char {
    if 'A' <= c <= 'Z' then c + 32 as char else c
  }

  /** Case folding of a directory-entry name, restricted to ASCII letters. */
  function Fold(s: string): (f: string)
    ensures |f| == |s|
    ensures forall i | 0 <= i < |s| :: f[i] == FoldChar(s[i])
  {
    seq(|s|, i requires 0 <= i < |s| => FoldChar(s[i]))
  }

  lemma FoldConcat(a: string, b: string)
    ensures Fold(a + b) == Fold(a) + Fold(b)
  {
  }

  // ---------- paths with slashes ----------

  /** Where the last component of a path starts. */
  function LastSlash(path: string): (i: nat)
    ensures i <= |path| && (i > 0 ==> path[i - 1] == '/')
  {
    if path == "" then 0 else if path[|path| - 1] == '/' then |path| else LastSlash(path[..|path| - 1])
  }

  function ParentPath(path: string): string {
    var i := LastSlash(path);
    if i == 0 then "" else path[..i - 1]
  }

  function LeafOf(path: string): string {
    path[LastSlash(path)..]
  }

  /** A path is its parent and its leaf, cut at the last slash; without a slash it is all leaf. */
  lemma {:induction false} PathIsCut(path: string)
    ensures '/' !in LeafOf(path)
    ensures if '/' in path then path == ParentPath(path) + "/" + LeafOf(path) else ParentPath(path) == "" && LeafOf(path) == path
  {
    var i := LastSlash(path);
    if path != "" && path[|path| - 1] != '/' {
      var front := path[..|path| - 1];
      PathIsCut(front);
      assert path == front + [path[|path| - 1]];
      assert LeafOf(path) == LeafOf(front) + [path[|path| - 1]];
    }
    if i > 0 {
      assert path == path[..i - 1] + "/" + path[i..];
    } else {
      assert path[0..] == path;
    }
  }
}
