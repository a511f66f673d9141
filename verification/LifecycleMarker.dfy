/** The recovery marker that every lifecycle operation leaves beside the object it works on. */
module LifecycleMarker {
  import opened Text

  datatype Marker = Marker(requestChecksum: string, phase: string, objectIdentity: string)

  const PREFIX := "engineering_lifecycle_marker_v1\n"
  const PREPARED := "prepared"
  const CASE_INTERMEDIATE := "case_intermediate"
  const DIRECTORY_STAGED := "directory_staged"
  const AFTER := "after"

  predicate IsPhase(phase: string) {
    phase == PREPARED || phase == CASE_INTERMEDIATE || phase == DIRECTORY_STAGED || phase == AFTER
  }

  predicate Valid(m: Marker) {
    && IsSha256(m.requestChecksum)
    && IsPhase(m.phase)
    && (m.objectIdentity == "" || IsStableIdentifier(m.objectIdentity))
  }

  function Print(m: Marker): string {
    Lines(PREFIX, m.requestChecksum, m.phase, m.objectIdentity)
  }

  function Parse(bytes: string): Option<Marker> {
    ParseBehind(PREFIX, bytes)
  }

  function ParseBehind(prefix: string, bytes: string): Option<Marker> {
    if !(prefix <= bytes) || bytes == "" || bytes[|bytes| - 1] != '\n' then None
    else
      match SplitLines(bytes, |prefix|)
      case None => None
      case Some((checksum, phase, identity)) =>
        var m := Marker(checksum, phase, identity);
        if Valid(m) then Some(m) else None
  }

  /** Three fields behind a prefix, each closed by a line break. */
  function Lines(prefix: string, x: string, y: string, z: string): string {
    prefix + x + "\n" + y + "\n" + z + "\n"
  }

  /** The three fields from `start` on, when the third line break is the last character. */
  function SplitLines(bytes: string, start: nat): Option<(string, string, string)>
    requires start <= |bytes|
  {
    match Find(bytes, '\n', start)
    case None => None
    case Some(a) =>
      match Find(bytes, '\n', a + 1)
      case None => None
      case Some(b) =>
        match Find(bytes, '\n', b + 1)
        case None => None
        case Some(c) =>
          if c != |bytes| - 1 then None
          else Some((bytes[start..a], bytes[a + 1..b], bytes[b + 1..c]))
  }

  lemma FindAt(s: string, from: nat, at: nat)
    requires from <= |s| && from <= at
    requires forall i | from <= i < at && i < |s| :: s[i] != '\n'
    requires at < |s| ==> s[at] == '\n'
    ensures Find(s, '\n', from) == if at < |s| then Some(at) else None
  {
  }

  /** Splitting any start of the three lines succeeds exactly when the start is the whole text. */
  lemma SplitOfLines(prefix: string, x: string, y: string, z: string, n: nat)
    requires '\n' !in x && '\n' !in y && '\n' !in z
    requires |prefix| <= n <= |Lines(prefix, x, y, z)|
    ensures
      var s := Lines(prefix, x, y, z);
      SplitLines(s[..n], |prefix|) == if n == |s| then Some((x, y, z)) else None
  {
    var s := Lines(prefix, x, y, z);
    var a := |prefix| + |x|;
    var b := a + 1 + |y|;
    var c := b + 1 + |z|;
    assert s[|prefix|..a] == x && s[a] == '\n';
    assert s[a + 1..b] == y && s[b] == '\n';
    assert s[b + 1..c] == z && s[c] == '\n';
    forall i | |prefix| <= i < a ensures s[i] != '\n' { assert s[i] == x[i - |prefix|]; }
    forall i | a < i < b ensures s[i] != '\n' { assert s[i] == y[i - a - 1]; }
    forall i | b < i < c ensures s[i] != '\n' { assert s[i] == z[i - b - 1]; }
    SplitAt(s, |prefix|, a, b, c, n);
    assert s[..|s|] == s;
  }

  /** A text with newlines at `a`, `b` and its last position `c` alone. */
  lemma SplitAt(s: string, start: nat, a: nat, b: nat, c: nat, n: nat)
    requires start <= a < b < c && |s| == c + 1 && start <= n <= |s|
    requires s[a] == '\n' && s[b] == '\n' && s[c] == '\n'
    requires forall i | start <= i < c && i != a && i != b :: s[i] != '\n'
    ensures SplitLines(s[..n], start) == if n == |s| then Some((s[start..a], s[a + 1..b], s[b + 1..c])) else None
  {
    FindAt(s[..n], start, a);
    if a < n {
      FindAt(s[..n], a + 1, b);
      if b < n {
        FindAt(s[..n], b + 1, c);
        if c < n { assert s[..n] == s; }
      }
    }
  }

  lemma LinesOfSplit(bytes: string, start: nat)
    requires start <= |bytes| && SplitLines(bytes, start).Some?
    ensures var (x, y, z) := SplitLines(bytes, start).value; Lines(bytes[..start], x, y, z) == bytes
  {
    var a := Find(bytes, '\n', start).value;
    var b := Find(bytes, '\n', a + 1).value;
    var c := Find(bytes, '\n', b + 1).value;
    assert bytes[..start] + bytes[start..a] == bytes[..a];
    assert bytes[..a] + "\n" == bytes[..a + 1];
    assert bytes[..a + 1] + bytes[a + 1..b] == bytes[..b];
    assert bytes[..b] + "\n" == bytes[..b + 1];
    assert bytes[..b + 1] + bytes[b + 1..c] == bytes[..c];
    assert bytes[..c] + "\n" == bytes;
  }

  lemma ParseBehindOfLines(prefix: string, m: Marker, n: nat)
    requires Valid(m)
    requires n <= |Lines(prefix, m.requestChecksum, m.phase, m.objectIdentity)|
    ensures
      var s := Lines(prefix, m.requestChecksum, m.phase, m.objectIdentity);
      ParseBehind(prefix, s[..n]) == if n == |s| then Some(m) else None
  {
    assert '\n' !in m.requestChecksum && '\n' !in m.phase && '\n' !in m.objectIdentity;
    var s := Lines(prefix, m.requestChecksum, m.phase, m.objectIdentity);
    assert prefix <= s;
    if n == |s| { assert s[..n] == s; }
    if |prefix| <= n {
      SplitOfLines(prefix, m.requestChecksum, m.phase, m.objectIdentity, n);
    }
  }

  /** Parsing a printed valid marker returns that marker. */
  lemma ParseOfPrint(m: Marker)
    requires Valid(m)
    ensures Parse(Print(m)) == Some(m)
  {
    ParseBehindOfLines(PREFIX, m, |Print(m)|);
    assert Print(m)[..|Print(m)|] == Print(m);
  }

  /** Every accepted byte string is the print of the valid marker it parses to. */
  lemma PrintOfParse(bytes: string)
    requires Parse(bytes).Some?
    ensures Valid(Parse(bytes).value) && Print(Parse(bytes).value) == bytes
  {
    PrintOfParseBehind(PREFIX, bytes);
  }

  lemma PrintOfParseBehind(prefix: string, bytes: string)
    requires ParseBehind(prefix, bytes).Some?
    ensures
      var m := ParseBehind(prefix, bytes).value;
      Valid(m) && Lines(prefix, m.requestChecksum, m.phase, m.objectIdentity) == bytes
  {
    LinesOfSplit(bytes, |prefix|);
    assert bytes[..|prefix|] == prefix;
  }

  /** A write that is cut short never leaves an acceptable marker behind. */
  lemma NoProperPrefixParses(m: Marker, n: nat)
    requires Valid(m) && n < |Print(m)|
    ensures Parse(Print(m)[..n]).None?
  {
    ParseBehindOfLines(PREFIX, m, n);
  }
}
