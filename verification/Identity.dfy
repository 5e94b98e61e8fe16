// Release identities and their numeric projections
// (scripts/version_plan.py:46-48, 291-319, 454-498).
module Identity {
  import opened Wrappers
  import opened Decimal

  datatype Channel = Nightly | Beta | Rc | Stable

  datatype Sequence = NoSequence | Numbered(n: int) | Stamped(stamp: string)

  // ---- accepted parts ----

  // 0, or digits without a leading zero.
  predicate Strict(s: string) { s != "" && AllDigits(s) && (s[0] == '0' ==> |s| == 1) }

  predicate Positive(s: string) { s != "" && AllDigits(s) && s[0] != '0' }

  function IndexOf(s: string, c: char): (i: nat)
    ensures i <= |s| && (forall k :: 0 <= k < i ==> s[k] != c) && (i < |s| ==> s[i] == c)
  {
    if s == "" || s[0] == c then 0 else
    assert forall k :: 0 < k < |s| ==> s[k] == s[1..][k - 1];
    1 + IndexOf(s[1..], c)
  }

  // Three parts separated by dots.
  function Parts(s: string): Option<(string, string, string)> {
    var i := IndexOf(s, '.');
    if i == |s| then None
    else
      var j := IndexOf(s[i + 1..], '.');
      if j == |s[i + 1..]| then None else Some((s[..i], s[i + 1..][..j], s[i + 1..][j + 1..]))
  }

  // X.Y.Z without prefix or suffix.
  predicate StrictBase(s: string) {
    match Parts(s)
    case None => false
    case Some((x, y, z)) => Strict(x) && Strict(y) && Strict(z)
  }

  // A UTC timestamp, a run and an attempt; `calendar` judges the timestamp's fields.
  predicate NightlyStamp(s: string, calendar: string -> bool) {
    match Parts(s)
    case None => false
    case Some((at, run, attempt)) => |at| == 14 && AllDigits(at) && calendar(at) && Positive(run) && Positive(attempt)
  }

  predicate Accepted(base: string, channel: Channel, sequence: Sequence, calendar: string -> bool) {
    && StrictBase(base)
    && match channel
       case Stable => sequence.NoSequence?
       case Nightly => sequence.Stamped? && NightlyStamp(sequence.stamp, calendar)
       case _ => sequence.Numbered? && sequence.n > 0
  }

  function Name(channel: Channel): string {
    match channel
    case Nightly => "nightly"
    case Beta => "beta"
    case Rc => "rc"
    case Stable => "stable"
  }

  function SequenceText(sequence: Sequence): string {
    match sequence
    case NoSequence => ""
    case Numbered(n) => DecInt(n)
    case Stamped(stamp) => stamp
  }

  // _identity
  function Version(base: string, channel: Channel, sequence: Sequence): string {
    if channel.Stable? then base else base + ("-" + (Name(channel) + ("." + SequenceText(sequence))))
  }

  function Tag(base: string, channel: Channel, sequence: Sequence): string { "v" + Version(base, channel, sequence) }

  // ---- a tag determines its parts ----

  // Texts that avoid a separator are recovered from what it joins.
  lemma JoinInjective(a: string, b: string, x: string, y: string, c: char)
    requires a + ([c] + x) == b + ([c] + y) && c !in a && c !in b
    ensures a == b && x == y
  {
    var s := a + ([c] + x);
    assert s[|a|] == c && s[|b|] == c;
    assert s[..|a|] == a && s[..|b|] == b;
    assert s[|a| + 1..] == x && s[|b| + 1..] == y;
  }

  lemma BaseHasNoDash(s: string)
    requires StrictBase(s)
    ensures '-' !in s
  {
    var i := IndexOf(s, '.');
    var rest := s[i + 1..];
    var j := IndexOf(rest, '.');
    forall k | 0 <= k < |s| ensures s[k] != '-' {
      if k < i {
        assert s[k] == s[..i][k];
      } else if k > i {
        assert s[k] == rest[k - i - 1];
        if k - i - 1 < j {
          assert rest[k - i - 1] == rest[..j][k - i - 1];
        } else if k - i - 1 > j {
          assert rest[k - i - 1] == rest[j + 1..][k - i - 1 - j - 1];
        }
      }
    }
  }

  lemma NameHasNoDot(channel: Channel)
    ensures '.' !in Name(channel)
  {
  }

  lemma NameInjective(a: Channel, b: Channel)
    requires Name(a) == Name(b)
    ensures a == b
  {
    assert |"nightly"| == 7 && |"beta"| == 4 && |"rc"| == 2 && |"stable"| == 6;
  }

  lemma SequenceInjective(channel: Channel, a: Sequence, b: Sequence, base: string, calendar: string -> bool)
    requires Accepted(base, channel, a, calendar) && Accepted(base, channel, b, calendar) && SequenceText(a) == SequenceText(b)
    ensures a == b
  {
    if a.Numbered? {
      DecInjective(a.n, b.n);
    }
  }

  // A tag determines base, channel and sequence.
  lemma TagDetermines(base: string, channel: Channel, sequence: Sequence, base': string, channel': Channel, sequence': Sequence, calendar: string -> bool)
    requires Accepted(base, channel, sequence, calendar) && Accepted(base', channel', sequence', calendar)
    requires Tag(base, channel, sequence) == Tag(base', channel', sequence')
    ensures base == base' && channel == channel' && sequence == sequence'
  {
    assert Tag(base, channel, sequence)[1..] == Version(base, channel, sequence);
    assert Tag(base', channel', sequence')[1..] == Version(base', channel', sequence');
    BaseHasNoDash(base);
    BaseHasNoDash(base');
    if channel.Stable? || channel'.Stable? {
      if !(channel.Stable? && channel'.Stable?) {
        Dashed(base, channel, sequence);
        Dashed(base', channel', sequence');
      }
    } else {
      var x, y := Name(channel) + ("." + SequenceText(sequence)), Name(channel') + ("." + SequenceText(sequence'));
      JoinInjective(base, base', x, y, '-');
      NameHasNoDot(channel);
      NameHasNoDot(channel');
      JoinInjective(Name(channel), Name(channel'), SequenceText(sequence), SequenceText(sequence'), '.');
      NameInjective(channel, channel');
      SequenceInjective(channel, sequence, sequence', base, calendar);
    }
  }

  lemma Dashed(base: string, channel: Channel, sequence: Sequence)
    ensures !channel.Stable? ==> '-' in Version(base, channel, sequence)
  {
    if !channel.Stable? {
      assert Version(base, channel, sequence)[|base|] == '-';
    }
  }

  // ---- the Apple build triple ----

  const APPLE_MAX: int := 99990000

  datatype Triple = Triple(major: int, minor: int, patch: int)

  predicate InRange(t: Triple) { 1 <= t.major <= 9999 && 0 <= t.minor <= 99 && 0 <= t.patch <= 99 }

  predicate Before(a: Triple, b: Triple) {
    a.major < b.major || (a.major == b.major && (a.minor < b.minor || (a.minor == b.minor && a.patch < b.patch)))
  }

  function Apple(build: int): Option<Triple> {
    if 0 < build <= APPLE_MAX then
      var n := build - 1;
      Some(Triple(n / 10000 + 1, n / 100 % 100, n % 100))
    else None
  }

  function Build(t: Triple): int { (t.major - 1) * 10000 + t.minor * 100 + t.patch + 1 }

  lemma Digits(n: int)
    requires n >= 0
    ensures n == n / 10000 * 10000 + n / 100 % 100 * 100 + n % 100 && n / 100 / 100 == n / 10000
  {
    var h := n / 100;
    assert h / 100 == n / 10000;
    assert h == h / 100 * 100 + h % 100;
    assert n == h * 100 + n % 100;
  }

  // The triple stays within its bounds, determines the build number, and every
  // triple within the bounds comes from exactly one build number.
  lemma AppleBijective(build: int, t: Triple)
    ensures 0 < build <= APPLE_MAX ==> Apple(build).Some? && InRange(Apple(build).value) && Build(Apple(build).value) == build
    ensures InRange(t) ==> 0 < Build(t) <= APPLE_MAX && Apple(Build(t)) == Some(t)
  {
    if 0 < build <= APPLE_MAX {
      Digits(build - 1);
    }
    if InRange(t) {
      var n := Build(t) - 1;
      Digits(n);
      assert n % 100 == t.patch by { Remainder((t.major - 1) * 100 + t.minor, t.patch); }
      assert n / 100 == (t.major - 1) * 100 + t.minor by { Remainder((t.major - 1) * 100 + t.minor, t.patch); }
      assert n / 100 % 100 == t.minor && n / 100 / 100 == t.major - 1 by { Remainder(t.major - 1, t.minor); }
    }
  }

  lemma Remainder(q: int, r: int)
    requires q >= 0 && 0 <= r < 100
    ensures (q * 100 + r) / 100 == q && (q * 100 + r) % 100 == r
  {
  }

  lemma BuildOrder(s: Triple, t: Triple)
    requires InRange(s) && InRange(t)
    ensures Before(s, t) <==> Build(s) < Build(t)
  {
  }

  // The order of build numbers is the order of the triples.
  lemma AppleOrder(a: int, b: int)
    requires 0 < a <= APPLE_MAX && 0 < b <= APPLE_MAX
    ensures a < b <==> Before(Apple(a).value, Apple(b).value)
  {
    AppleBijective(a, Triple(1, 0, 0));
    AppleBijective(b, Triple(1, 0, 0));
    BuildOrder(Apple(a).value, Apple(b).value);
  }

  // ---- the nightly PEP 440 number ----

  const ATTEMPTS: int := 1000000
  const PEP440_MAX: int := 18446744073709551614

  function Pep440(run: int, attempt: int): Option<int> {
    var number := run * ATTEMPTS + attempt;
    if attempt < ATTEMPTS && number <= PEP440_MAX then Some(number) else None
  }

  // The components of an accepted stamp, as int() reads them.
  function NightlyNumber(stamp: string): Option<int> {
    match Parts(stamp)
    case None => None
    case Some((_, run, attempt)) => if AllDigits(run) && AllDigits(attempt) then Pep440(ParseNat(run), ParseNat(attempt)) else None
  }

  // Strictly monotone in (run, attempt), never above what uv can store, and able to
  // tell any two run and attempt pairs apart.
  lemma Pep440Monotone(run: int, attempt: int, run': int, attempt': int)
    requires attempt >= 0 && attempt' >= 0 && Pep440(run, attempt).Some? && Pep440(run', attempt').Some?
    ensures Pep440(run, attempt).value <= PEP440_MAX
    ensures run < run' || (run == run' && attempt < attempt') <==> Pep440(run, attempt).value < Pep440(run', attempt').value
    ensures Pep440(run, attempt) == Pep440(run', attempt') ==> run == run' && attempt == attempt'
  {
  }

  // An accepted stamp's number is exactly that of its run and attempt, and is refused
  // exactly when the attempt or the number is too large.
  lemma NightlyNumberIs(stamp: string, calendar: string -> bool)
    requires NightlyStamp(stamp, calendar)
    ensures var (at, run, attempt) := Parts(stamp).value;
      && stamp == at + ("." + (run + ("." + attempt)))
      && NightlyNumber(stamp) == Pep440(ParseNat(run), ParseNat(attempt))
      && (NightlyNumber(stamp).None? <==> ParseNat(attempt) >= ATTEMPTS || ParseNat(run) * ATTEMPTS + ParseNat(attempt) > PEP440_MAX)
  {
    var i := IndexOf(stamp, '.');
    var rest := stamp[i + 1..];
    var j := IndexOf(rest, '.');
    assert rest == rest[..j] + ("." + rest[j + 1..]);
    assert stamp == stamp[..i] + ("." + rest);
  }
}
