/** The disk arguments on the command line (phaul/p_haul_vz.py, `__parse_fdfs_arg` and
    `__parse_secondary_disks_arg`; phaul/fs_haul_ploop.py, `get_delta_abspath`). */
module DiskArgs {
  import opened Prelude

  // ---- strings ---------------------------------------------------------------------------------

  function Index(s: string, c: char): (i: nat)
    ensures i <= |s| && (i < |s| ==> s[i] == c) && c !in s[..i]
  {
    if s == "" || s[0] == c then 0 else 1 + Index(s[1..], c)
  }

  /** `s.split(c)`. */
  function Split(s: string, c: char): (parts: seq<string>)
    ensures parts != []
    decreases |s|
  {
    var i := Index(s, c);
    if i == |s| then [s] else [s[..i]] + Split(s[i + 1..], c)
  }

  function Join(parts: seq<string>, c: char): string {
    if parts == [] then "" else if |parts| == 1 then parts[0] else parts[0] + [c] + Join(parts[1..], c)
  }

  function Count(s: string, c: char): nat {
    if s == "" then 0 else (if s[0] == c then 1 else 0) + Count(s[1..], c)
  }

  /** The ends of `s.rpartition(c)`. */
  function RPartition(s: string, c: char): (string, string) {
    if c !in s then ("", s)
    else if s[|s| - 1] == c then (s[..|s| - 1], "")
    else var (head, tail) := RPartition(s[..|s| - 1], c); (head, tail + [s[|s| - 1]])
  }

  lemma {:induction false} CountAppend(s: string, t: string, c: char)
    ensures Count(s + t, c) == Count(s, c) + Count(t, c)
  {
    if s == "" {
      assert s + t == t;
    } else {
      assert (s + t)[1..] == s[1..] + t;
      CountAppend(s[1..], t, c);
    }
  }

  lemma {:induction false} CountZero(s: string, c: char)
    ensures Count(s, c) == 0 <==> c !in s
  {
    if s != "" {
      CountZero(s[1..], c);
      assert s == [s[0]] + s[1..];
    }
  }

  lemma {:induction false} SplitCount(s: string, c: char)
    ensures |Split(s, c)| == Count(s, c) + 1
    decreases |s|
  {
    var i := Index(s, c);
    CountZero(s[..i], c);
    if i == |s| {
      assert s[..i] == s;
    } else {
      SplitCount(s[i + 1..], c);
      assert s == s[..i] + ([c] + s[i + 1..]);
      CountAppend(s[..i], [c] + s[i + 1..], c);
    }
  }

  lemma {:induction false} IndexOf(head: string, c: char, tail: string)
    requires c !in head
    ensures Index(head + [c] + tail, c) == |head|
  {
    if head != "" {
      assert (head + [c] + tail)[1..] == head[1..] + [c] + tail;
      IndexOf(head[1..], c, tail);
    }
  }

  lemma {:induction false} SplitAlone(s: string, c: char)
    requires c !in s
    ensures Index(s, c) == |s| && Split(s, c) == [s]
  {
    if s != "" {
      SplitAlone(s[1..], c);
    }
  }

  lemma SplitFirst(head: string, c: char, tail: string)
    requires c !in head
    ensures Split(head + [c] + tail, c) == [head] + Split(tail, c)
  {
    var s := head + [c] + tail;
    IndexOf(head, c, tail);
    assert s[..|head|] == head && s[|head| + 1..] == tail;
  }

  lemma {:induction false} SplitJoin(parts: seq<string>, c: char)
    requires parts != [] && forall p | p in parts :: c !in p
    ensures Split(Join(parts, c), c) == parts
  {
    if |parts| == 1 {
      SplitAlone(parts[0], c);
    } else {
      SplitJoin(parts[1..], c);
      SplitFirst(parts[0], c, Join(parts[1..], c));
    }
  }

  lemma {:induction false} RPartitionLast(head: string, c: char, tail: string)
    requires c !in tail
    ensures RPartition(head + [c] + tail, c) == (head, tail)
  {
    var s := head + [c] + tail;
    assert s[|head|] == c;
    if tail == "" {
      assert s[..|s| - 1] == head;
    } else {
      var init := tail[..|tail| - 1];
      assert s[..|s| - 1] == head + [c] + init;
      assert tail == init + [s[|s| - 1]];
      RPartitionLast(head, c, init);
    }
  }

  // ---- numbers ---------------------------------------------------------------------------------

  predicate IsDigit(c: char) {
    '0' <= c <= '9'
  }

  function DigitValue(c: char): nat
    requires IsDigit(c)
  {
    c as int - '0' as int
  }

  function PrintNat(n: nat): string {
    if n < 10 then ['0' + n as char] else PrintNat(n / 10) + ['0' + (n % 10) as char]
  }

  function PrintInt(n: int): string {
    if n < 0 then "-" + PrintNat(-n) else PrintNat(n)
  }

  /** The value if all of `s` is digits, and at least one. */
  function ParseNat(s: string): Result<int> {
    if s == "" || !IsDigit(s[|s| - 1]) then Failure
    else
      var d := DigitValue(s[|s| - 1]);
      if |s| == 1 then Success(d) else
      match ParseNat(s[..|s| - 1])
      case Success(n) => Success(10 * n + d)
      case Failure => Failure
  }

  function Negated(r: Result<int>): Result<int> {
    match r
    case Success(n) => Success(-n)
    case Failure => Failure
  }

  /** `int(s)`, for a string without spaces. */
  function ParseInt(s: string): Result<int> {
    if s != "" && s[0] == '-' then Negated(ParseNat(s[1..]))
    else if s != "" && s[0] == '+' then ParseNat(s[1..])
    else ParseNat(s)
  }

  lemma {:induction false} NatRoundTrip(n: nat)
    ensures ParseNat(PrintNat(n)) == Success(n)
    ensures PrintNat(n) != "" && forall c | c in PrintNat(n) :: IsDigit(c)
  {
    if n >= 10 {
      NatRoundTrip(n / 10);
      var s := PrintNat(n);
      assert s[..|s| - 1] == PrintNat(n / 10);
    }
  }

  /** A number is one digit or more, */
  lemma {:induction false} NatMeans(s: string)
    ensures ParseNat(s).Success? <==> s != "" && forall i | 0 <= i < |s| :: '0' <= s[i] <= '9'
    ensures |s| == 1 && ParseNat(s).Success? ==> s[0] as int == '0' as int + ParseNat(s).value
  {
    if |s| > 1 {
      var init := s[..|s| - 1];
      NatMeans(init);
      assert forall i | 0 <= i < |init| :: init[i] == s[i];
      assert ParseNat(s).Success? <==> ParseNat(init).Success? && IsDigit(s[|s| - 1]);
    }
  }

  function PowerOfTen(n: nat): nat {
    if n == 0 then 1 else 10 * PowerOfTen(n - 1)
  }

  /** and digits put before a number count for ten to the number of its digits. */
  lemma {:induction false} NatConcat(s: string, t: string)
    requires ParseNat(s).Success? && ParseNat(t).Success?
    ensures ParseNat(s + t) == Success(ParseNat(s).value * PowerOfTen(|t|) + ParseNat(t).value)
  {
    var n := |t| - 1;
    assert (s + t)[..|s + t| - 1] == s + t[..n];
    if n == 0 {
      assert s + t[..n] == s && PowerOfTen(1) == 10 * PowerOfTen(0);
    } else {
      NatConcat(s, t[..n]);
      TenTimes(ParseNat(s).value, PowerOfTen(n), ParseNat(t[..n]).value);
    }
  }

  lemma TenTimes(a: int, p: nat, b: int)
    ensures 10 * (a * p + b) == a * (10 * p) + 10 * b
  {
  }

  lemma IntRoundTrip(n: int)
    ensures ParseInt(PrintInt(n)) == Success(n)
    ensures forall c | c in PrintInt(n) :: IsDigit(c) || c == '-'
  {
    NatRoundTrip(if n < 0 then -n else n);
    if n < 0 {
      assert PrintInt(n)[1..] == PrintNat(-n);
    } else {
      assert PrintInt(n)[0] in PrintInt(n);
    }
  }

  lemma PlainNumber(n: int)
    ensures ParseInt(PrintInt(n)) == Success(n)
    ensures DISKS_SEPARATOR !in PrintInt(n) && PAIR_SEPARATOR !in PrintInt(n)
  {
    IntRoundTrip(n);
  }

  // ---- active deltas: path:fd[,...] ----------------------------------------------------------------

  const DISKS_SEPARATOR: char := ','
  const PAIR_SEPARATOR: char := ':'

  /** `os.path.join`. */
  function PathJoin(a: string, b: string): string {
    if b != "" && b[0] == '/' then b
    else if a == "" || a[|a| - 1] == '/' then a + b
    else a + "/" + b
  }

  function GetDeltaAbspath(path: string, ctPriv: string): string {
    if path != "" && path[0] == '/' then path else PathJoin(ctPriv, path)
  }

  /** An absolute path stays as it is. Another one comes below the private area: its path, one slash
      unless it ends in one, and the path given. Doing so twice changes nothing more. */
  lemma AbsoluteInPrivate(path: string, ctPriv: string)
    ensures path != "" && path[0] == '/' ==> GetDeltaAbspath(path, ctPriv) == path
    ensures (path == "" || path[0] != '/') && (ctPriv == "" || ctPriv[|ctPriv| - 1] == '/') ==>
      GetDeltaAbspath(path, ctPriv) == ctPriv + path
    ensures (path == "" || path[0] != '/') && ctPriv != "" && ctPriv[|ctPriv| - 1] != '/' ==>
      GetDeltaAbspath(path, ctPriv) == ctPriv + "/" + path
    ensures ctPriv != "" && ctPriv[0] == '/' ==>
      var p := GetDeltaAbspath(path, ctPriv);
      p != "" && p[0] == '/' && GetDeltaAbspath(p, ctPriv) == p
  {
  }

  type Delta = (string, int)

  function ParseDelta(s: string, ctPriv: string): Result<Delta> {
    var (path, fd) := RPartition(s, PAIR_SEPARATOR);
    match ParseInt(fd)
    case Success(n) => Success((GetDeltaAbspath(path, ctPriv), n))
    case Failure => Failure
  }

  /** All of them, or an exception if one does not parse. */
  function ParseAll<T>(parts: seq<string>, parse: string -> Result<T>): Result<seq<T>> {
    if parts == [] then Success([]) else
    match ParseAll(parts[..|parts| - 1], parse)
    case Failure => Failure
    case Success(done) =>
      match parse(parts[|parts| - 1])
      case Failure => Failure
      case Success(x) => Success(done + [x])
  }

  lemma {:induction false} ParseAllAt<T>(parts: seq<string>, parse: string -> Result<T>, values: seq<T>)
    ensures ParseAll(parts, parse) == Success(values) <==>
      (|values| == |parts| && forall i | 0 <= i < |parts| :: parse(parts[i]) == Success(values[i]))
  {
    if parts != [] {
      var n := |parts| - 1;
      var init := ParseAll(parts[..n], parse);
      if init.Success? {
        ParseAllAt(parts[..n], parse, init.value);
      }
      if |values| == |parts| {
        ParseAllAt(parts[..n], parse, values[..n]);
        assert values == values[..n] + [values[n]];
      }
    }
  }

  lemma {:induction false} FailureStays<T>(parts: seq<string>, parse: string -> Result<T>, n: nat)
    requires n < |parts| && parse(parts[n]).Failure?
    ensures ParseAll(parts, parse).Failure?
  {
    if n < |parts| - 1 {
      FailureStays(parts[..|parts| - 1], parse, n);
    }
  }

  function Fdfs(fdfs: string, ctPriv: string): Result<seq<Delta>> {
    if fdfs == "" then Success([]) else
    ParseAll(Split(fdfs, DISKS_SEPARATOR), s => ParseDelta(s, ctPriv))
  }

  method ParseFdfsArg(fdfs: string, ctPriv: string) returns (r: Result<seq<Delta>>)
    ensures r == Fdfs(fdfs, ctPriv)
  {
    if fdfs == "" {
      return Success([]);
    }
    var parts := Split(fdfs, DISKS_SEPARATOR);
    ghost var parse := s => ParseDelta(s, ctPriv);
    var deltas: seq<Delta> := [];
    for i := 0 to |parts|
      invariant ParseAll(parts[..i], parse) == Success(deltas)
    {
      var (path, fd) := RPartition(parts[i], PAIR_SEPARATOR);
      var n := ParseInt(fd);
      if n.Failure? {
        FailureStays(parts, parse, i);
        return Failure;
      }
      deltas := deltas + [(GetDeltaAbspath(path, ctPriv), n.value)];
      assert parts[..i + 1][..i] == parts[..i];
    }
    assert parts[..|parts|] == parts;
    return Success(deltas);
  }

  function PrintDelta(d: Delta): string {
    d.0 + [PAIR_SEPARATOR] + PrintInt(d.1)
  }

  function Printed<T>(xs: seq<T>, print_: T -> string): seq<string> {
    seq(|xs|, i requires 0 <= i < |xs| => print_(xs[i]))
  }

  function PrintFdfs(deltas: seq<Delta>): string {
    Join(Printed(deltas, PrintDelta), DISKS_SEPARATOR)
  }

  function Absolute(deltas: seq<Delta>, ctPriv: string): seq<Delta> {
    seq(|deltas|, i requires 0 <= i < |deltas| => (GetDeltaAbspath(deltas[i].0, ctPriv), deltas[i].1))
  }

  function CountAll(parts: seq<string>, c: char): nat {
    if parts == [] then 0 else Count(parts[0], c) + CountAll(parts[1..], c)
  }

  lemma {:induction false} CountJoin(parts: seq<string>, c: char)
    requires parts != []
    ensures Count(Join(parts, c), c) == CountAll(parts, c) + |parts| - 1
  {
    if |parts| > 1 {
      CountJoin(parts[1..], c);
      CountAppend(parts[0], [c] + Join(parts[1..], c), c);
      assert parts[0] + [c] + Join(parts[1..], c) == parts[0] + ([c] + Join(parts[1..], c));
      assert ([c] + Join(parts[1..], c))[1..] == Join(parts[1..], c);
    } else {
      assert CountAll(parts[1..], c) == 0;
    }
  }

  lemma {:induction false} CountAllZero(parts: seq<string>, c: char)
    ensures CountAll(parts, c) == 0 <==> forall p | p in parts :: c !in p
  {
    if parts != [] {
      CountZero(parts[0], c);
      CountAllZero(parts[1..], c);
      assert parts == [parts[0]] + parts[1..];
    }
  }

  /** Splitting gives the joined parts back exactly if none contains the separator; and otherwise
      not even their number. */
  lemma SplitBack(parts: seq<string>, c: char)
    requires parts != []
    ensures (forall p | p in parts :: c !in p) ==> Split(Join(parts, c), c) == parts
    ensures |Split(Join(parts, c), c)| == |parts| ==> forall p | p in parts :: c !in p
  {
    CountJoin(parts, c);
    CountAllZero(parts, c);
    SplitCount(Join(parts, c), c);
    if forall p | p in parts :: c !in p {
      SplitJoin(parts, c);
    }
  }

  lemma DeltaBack(d: Delta, ctPriv: string)
    ensures ParseDelta(PrintDelta(d), ctPriv) == Success((GetDeltaAbspath(d.0, ctPriv), d.1))
    ensures DISKS_SEPARATOR in PrintDelta(d) <==> DISKS_SEPARATOR in d.0
  {
    PlainNumber(d.1);
    RPartitionLast(d.0, PAIR_SEPARATOR, PrintInt(d.1));
  }

  lemma {:induction false} JoinNonEmpty(parts: seq<string>, c: char)
    requires parts != [] && forall p | p in parts :: p != ""
    ensures Join(parts, c) != ""
  {
    assert parts[0] in parts;
  }

  /** Printing a list of deltas and parsing it gives it back, with the paths made absolute, if and
      only if no path contains a comma; colons do no harm. */
  lemma FdfsRoundTrip(deltas: seq<Delta>, ctPriv: string)
    ensures Fdfs(PrintFdfs(deltas), ctPriv) == Success(Absolute(deltas, ctPriv))
       <==> forall d | d in deltas :: DISKS_SEPARATOR !in d.0
  {
    if deltas == [] {
      return;
    }
    var parts := Printed(deltas, PrintDelta);
    var parse := s => ParseDelta(s, ctPriv);
    forall i | 0 <= i < |parts|
      ensures parts[i] != "" && parse(parts[i]) == Success(Absolute(deltas, ctPriv)[i])
      ensures DISKS_SEPARATOR in parts[i] <==> DISKS_SEPARATOR in deltas[i].0
    {
      DeltaBack(deltas[i], ctPriv);
    }
    JoinNonEmpty(parts, DISKS_SEPARATOR);
    SplitBack(parts, DISKS_SEPARATOR);
    ParseAllAt(Split(PrintFdfs(deltas), DISKS_SEPARATOR), parse, Absolute(deltas, ctPriv));
  }

  // ---- secondary disks: uuid:major:minor[,...] -----------------------------------------------------

  datatype Disk = Disk(uuid: string, major: int, minor: int)

  function ParseDisk(s: string): Result<Disk> {
    var fields := Split(s, PAIR_SEPARATOR);
    if |fields| != 3 then Failure else
    match (ParseInt(fields[1]), ParseInt(fields[2]))
    case (Success(major), Success(minor)) => Success(Disk(fields[0], major, minor))
    case _ => Failure
  }

  function Disks(arg: string): Result<seq<Disk>> {
    if arg == "" then Success([]) else ParseAll(Split(arg, DISKS_SEPARATOR), ParseDisk)
  }

  method ParseSecondaryDisksArg(arg: string) returns (r: Result<seq<Disk>>)
    ensures r == Disks(arg)
  {
    if arg == "" {
      return Success([]);
    }
    var parts := Split(arg, DISKS_SEPARATOR);
    var disks: seq<Disk> := [];
    for i := 0 to |parts|
      invariant ParseAll(parts[..i], ParseDisk) == Success(disks)
    {
      assert parts[..i + 1][..i] == parts[..i];
      var fields := Split(parts[i], PAIR_SEPARATOR);
      if |fields| != 3 {
        FailureStays(parts, ParseDisk, i);
        return Failure;
      }
      var major, minor := ParseInt(fields[1]), ParseInt(fields[2]);
      if major.Failure? || minor.Failure? {
        FailureStays(parts, ParseDisk, i);
        return Failure;
      }
      disks := disks + [Disk(fields[0], major.value, minor.value)];
    }
    assert parts[..|parts|] == parts;
    return Success(disks);
  }

  function FieldsOf(d: Disk): seq<string> {
    [d.uuid, PrintInt(d.major), PrintInt(d.minor)]
  }

  function PrintDisk(d: Disk): string {
    Join(FieldsOf(d), PAIR_SEPARATOR)
  }

  function PrintDisks(disks: seq<Disk>): string {
    Join(Printed(disks, PrintDisk), DISKS_SEPARATOR)
  }

  lemma DiskBack(d: Disk)
    ensures ParseDisk(PrintDisk(d)) == Success(d) <==> PAIR_SEPARATOR !in d.uuid
    ensures PrintDisk(d) != "" && (DISKS_SEPARATOR in PrintDisk(d) <==> DISKS_SEPARATOR in d.uuid)
  {
    var major, minor := PrintInt(d.major), PrintInt(d.minor);
    PlainNumber(d.major);
    PlainNumber(d.minor);
    PrintedDisk(d.uuid, major, minor);
    FieldsBack(d.uuid, major, minor);
  }

  lemma FieldsBack(uuid: string, major: string, minor: string)
    requires PAIR_SEPARATOR !in major && PAIR_SEPARATOR !in minor
    ensures var fields := Split(Join([uuid, major, minor], PAIR_SEPARATOR), PAIR_SEPARATOR);
      if PAIR_SEPARATOR in uuid then |fields| != 3 else fields == [uuid, major, minor]
  {
    var fields := [uuid, major, minor];
    SplitBack(fields, PAIR_SEPARATOR);
    assert uuid == fields[0] && forall p | p in fields :: p == uuid || p == major || p == minor;
  }

  lemma PrintedDisk(uuid: string, major: string, minor: string)
    ensures Join([uuid, major, minor], PAIR_SEPARATOR) == uuid + [PAIR_SEPARATOR] + (major + [PAIR_SEPARATOR] + minor)
  {
    assert [uuid, major, minor][1..] == [major, minor] && [major, minor][1..] == [minor];
    assert Join([minor], PAIR_SEPARATOR) == minor;
    assert Join([major, minor], PAIR_SEPARATOR) == major + [PAIR_SEPARATOR] + minor;
  }

  /** A list of disks comes back if and only if no uuid contains a comma or a colon. */
  lemma DisksRoundTrip(disks: seq<Disk>)
    ensures Disks(PrintDisks(disks)) == Success(disks)
       <==> forall d | d in disks :: DISKS_SEPARATOR !in d.uuid && PAIR_SEPARATOR !in d.uuid
  {
    if disks == [] {
      return;
    }
    var parts := Printed(disks, PrintDisk);
    forall i | 0 <= i < |parts|
      ensures parts[i] != "" && (ParseDisk(parts[i]) == Success(disks[i]) <==> PAIR_SEPARATOR !in disks[i].uuid)
      ensures DISKS_SEPARATOR in parts[i] <==> DISKS_SEPARATOR in disks[i].uuid
    {
      DiskBack(disks[i]);
    }
    JoinNonEmpty(parts, DISKS_SEPARATOR);
    SplitBack(parts, DISKS_SEPARATOR);
    ParseAllAt(Split(PrintDisks(disks), DISKS_SEPARATOR), ParseDisk, disks);
  }
}
