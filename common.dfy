/** Values and collaborators shared by the configuration-resolution steps of
    every builder: optional values, opaque collaborator errors, durations,
    the string operations the Go code uses, and the communicator settings. */
module Common {

  datatype Option<T> = None | Some(value: T)

  /** An error produced by a collaborator whose rules are not part of this
      model (a communicator or sub-configuration Prepare, a template render). */
  datatype Message = Message(text: string)

  /** time.Duration: a whole number of nanoseconds. */
  type Duration = int

  const Second: Duration := 1_000_000_000
  const Minute: Duration := 60 * Second

  /** time.ParseDuration, left uninterpreted: None stands for a parse error. */
  type DurationParser = string -> Option<Duration>

  /** The only facts about time.ParseDuration the model relies on: the two
      default literals used by the builders parse to what they say. */
  predicate ParsesDefaultLiterals(parse: DurationParser)
  {
    parse("5m") == Some(5 * Minute) && parse("20s") == Some(20 * Second)
  }

  /** os.Getenv: a variable that is not set reads as the empty string. */
  function Getenv(env: map<string, string>, key: string): (r: string)
    ensures key in env ==> r == env[key]
    ensures key !in env ==> r == ""
  {
    if key in env then env[key] else ""
  }

  /** What os.Stat reports about a path. */
  datatype StatResult = Exists | NotExist | OtherStatError

  /** strings.HasPrefix */
  predicate HasPrefix(s: string, prefix: string)
  {
    |prefix| <= |s| && s[..|prefix|] == prefix
  }

  /** The Go idiom `if x == "" { x = d }`. */
  function OrDefault(s: string, d: string): (r: string)
    ensures s == "" ==> r == d
    ensures s != "" ==> r == s
  {
    if s == "" then d else s
  }

  lemma OrDefaultIdempotent(s: string, d: string)
    requires d != ""
    ensures OrDefault(s, d) != ""
    ensures OrDefault(OrDefault(s, d), d) == OrDefault(s, d)
  {
  }

  /** Dafny's division of a natural number leaves a remainder below b. */
  lemma EuclidNonNeg(n: int, b: int)
    requires n >= 0 && b > 0
    ensures n / b >= 0 && 0 <= n - (n / b) * b < b
  {
    var q, m := n / b, n % b;
    assert n == q * b + m;
  }

  /** Go's / on integers: the quotient truncated toward zero, so it has
      the sign of a and its multiple of b falls short of a by less than b. */
  function GoQuo(a: int, b: int): (q: int)
    requires b > 0
    ensures a >= 0 ==> q >= 0 && 0 <= a - q * b < b
    ensures a < 0 ==> q <= 0 && -b < a - q * b <= 0
  {
    if a >= 0 then
      EuclidNonNeg(a, b);
      a / b
    else
      var n := (-a) / b;
      EuclidNonNeg(-a, b);
      assert (-n) * b == -(n * b);
      -n
  }

  /** Go's % on integers: what remains of a after the truncated quotient,
      so a non-zero remainder takes the sign of the dividend (Dafny's %
      never is negative). */
  function GoRem(a: int, b: int): (r: int)
    requires b > 0
    ensures a == GoQuo(a, b) * b + r
    ensures -b < r < b
    ensures a >= 0 ==> r == a % b
    ensures a < 0 ==> r <= 0
  {
    if a >= 0 then a % b else -((-a) % b)
  }

  /** Whether Go's remainder by 60 is zero does not depend on how the
      division rounds: it is zero exactly for the multiples of 60. */
  lemma GoRemBy60ZeroIffDivides(a: int)
    ensures GoRem(a, 60) == 0 <==> a % 60 == 0
  {
    if a < 0 {
      var q := (-a) / 60;
      var m := (-a) % 60;
      assert -a == q * 60 + m;
      if m == 0 {
        assert a == (-q) * 60;
      } else {
        assert a == (-q - 1) * 60 + (60 - m);
      }
    }
  }

  /** strings.Index(s, string([c])): the first position of c, or -1. */
  function IndexOf(s: string, c: char): (i: int)
    ensures -1 <= i < |s|
    ensures i == -1 <==> c !in s
    ensures i >= 0 ==> s[i] == c && c !in s[..i]
  {
    if s == [] then -1
    else if s[0] == c then 0
    else
      var j := IndexOf(s[1..], c);
      assert j >= 0 ==> s[..j + 1] == [s[0]] + s[1..][..j];
      if j == -1 then -1 else j + 1
  }

  /** strings.ToLower, on the ASCII letters; every other character is kept. */
  function LowerChar(c: char): (r: char)
    ensures 'A' <= c <= 'Z' ==> r as int == c as int + 32
    ensures !('A' <= c <= 'Z') ==> r == c
  {
    if 'A' <= c <= 'Z' then (c as int + 32) as char else c
  }

  function ToLower(s: string): (r: string)
    ensures |r| == |s|
    ensures forall i :: 0 <= i < |s| ==> r[i] == LowerChar(s[i])
    ensures forall i :: 0 <= i < |r| ==> !('A' <= r[i] <= 'Z')
  {
    seq(|s|, i requires 0 <= i < |s| => LowerChar(s[i]))
  }

  /** Lowercasing twice is lowercasing once. */
  lemma ToLowerIdempotent(s: string)
    ensures ToLower(ToLower(s)) == ToLower(s)
  {
  }

  /** fmt's %d of a non-negative number. */
  function NatToString(n: nat): (s: string)
    ensures |s| >= 1
    ensures forall i :: 0 <= i < |s| ==> '0' <= s[i] <= '9'
    decreases n
  {
    var digit := "0123456789"[n % 10];
    if n < 10 then [digit] else NatToString(n / 10) + [digit]
  }

  /** fmt's %d. */
  function IntToString(n: int): (s: string)
    ensures |s| >= 1
    ensures n < 0 <==> s[0] == '-'
  {
    if n < 0 then "-" + NatToString(-n) else NatToString(n)
  }

  /** The communicator settings (communicator.Config) that the builders read
      or default; the communicator's own rules are not part of this model. */
  datatype CommConfig = CommConfig(
    commType: string,
    sshKeyPairName: string,
    sshTemporaryKeyPairName: string,
    sshPrivateKeyFile: string,
    sshPassword: string,
    sshInterface: string,
    sshAgentAuth: bool,
    winRMPassword: string)
  {
    /** No key pair, temporary key pair name, private key or password was given. */
    predicate NeedsTemporaryKeyPair()
    {
      sshKeyPairName == "" && sshTemporaryKeyPairName == "" && sshPrivateKeyFile == "" && sshPassword == ""
    }
  }

  /** The temporary key-pair default shared by the AWS and CloudStack
      builders: "packer_<uuid>" when no credential was given. */
  function WithTemporaryKeyPair(c: CommConfig, uuid: string): (r: CommConfig)
    ensures c.NeedsTemporaryKeyPair() ==> r == c.(sshTemporaryKeyPairName := "packer_" + uuid)
    ensures !c.NeedsTemporaryKeyPair() ==> r == c
    ensures !r.NeedsTemporaryKeyPair()
  {
    if c.NeedsTemporaryKeyPair() then c.(sshTemporaryKeyPairName := "packer_" + uuid) else c
  }

  /** A collaborator's errors, each wrapped as one of the caller's own, in
      the order the collaborator reported them. */
  function Wrapped<E>(ms: seq<Message>, wrap: Message -> E): (r: seq<E>)
    ensures |r| == |ms|
    ensures forall i :: 0 <= i < |ms| ==> r[i] == wrap(ms[i])
  {
    seq(|ms|, i requires 0 <= i < |ms| => wrap(ms[i]))
  }

  /** Communicator.Prepare, left uninterpreted. */
  type CommPrepare = CommConfig -> seq<Message>
}
