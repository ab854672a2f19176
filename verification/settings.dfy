/** The bot's static configuration as the assistant code reads it: an
    application identity shared by every assistant, and five optional
    session strings, `STRING1` .. `STRING5`. Python's truthiness of an
    optional string (None and "" are false) is made explicit here, with the
    few sequence and arithmetic helpers the other modules share. */
module Settings {

  datatype Option<+T> = None | Some(value: T)

  /** One of the five fixed assistant positions. */
  type Slot = i: int | 1 <= i <= 5 witness 1

  /** An optional session string (`None` when the setting is absent). */
  type Credential = Option<string>

  datatype Config = Config(
    apiId: int,
    apiHash: string,
    string1: Credential,
    string2: Credential,
    string3: Credential,
    string4: Credential,
    string5: Credential)

  /** Python truthiness of an optional string: present and non-empty. */
  predicate Truthy(c: Credential) {
    c.Some? && |c.value| > 0
  }

  /** The credential stored under `STRING<i>`. */
  function CredentialOf(cfg: Config, i: Slot): Credential {
    if i == 1 then cfg.string1
    else if i == 2 then cfg.string2
    else if i == 3 then cfg.string3
    else if i == 4 then cfg.string4
    else cfg.string5
  }

  /** The decimal digit naming a slot, as used in client names, working
      directories and setting names. */
  function Digit(i: Slot): (d: string)
    ensures |d| == 1 && '1' <= d[0] <= '5'
  {
    [(48 + i) as char]
  }

  lemma DigitInjective(i: Slot, j: Slot)
    requires i != j
    ensures Digit(i) != Digit(j)
  {
    assert Digit(i)[0] != Digit(j)[0];
  }

  /** Strictly increasing integers: the order in which a Python dict built
      slot by slot yields its keys. */
  predicate StrictlyAscending(s: seq<int>) {
    forall a, b :: 0 <= a < b < |s| ==> s[a] < s[b]
  }

  /** Putting a smaller element in front keeps a sequence strictly increasing. */
  lemma AscendingCons(x: int, s: seq<int>)
    requires StrictlyAscending(s)
    requires forall y :: y in s ==> x < y
    ensures StrictlyAscending([x] + s)
  {
    var t := [x] + s;
    forall a, b | 0 <= a < b < |t| ensures t[a] < t[b] {
      assert t[b] == s[b - 1];
      if a > 0 {
        assert t[a] == s[a - 1];
      } else {
        assert t[b] in s;
      }
    }
  }

  /** The tail of a strictly increasing sequence is strictly increasing and
      lies above its head. */
  lemma AscendingTail(s: seq<int>)
    requires StrictlyAscending(s) && |s| > 0
    ensures StrictlyAscending(s[1..])
    ensures forall y :: y in s[1..] ==> s[0] < y
  {
    forall a, b | 0 <= a < b < |s[1..]| ensures s[1..][a] < s[1..][b] {
      assert s[1..][a] == s[a + 1] && s[1..][b] == s[b + 1];
    }
    forall y | y in s[1..] ensures s[0] < y {
      var k :| 0 <= k < |s[1..]| && s[1..][k] == y;
      assert s[k + 1] == y;
    }
  }

  /** A strictly increasing sequence holding exactly `a` and `b`, `a < b`,
      is `[a, b]`. */
  lemma AscendingPair(s: seq<int>, a: int, b: int)
    requires a < b && StrictlyAscending(s)
    requires a in s && b in s
    requires forall x :: x in s ==> x == a || x == b
    ensures s == [a, b]
  {
    var i :| 0 <= i < |s| && s[i] == a;
    var j :| 0 <= j < |s| && s[j] == b;
    assert i < j;
    assert s[0] in s && s[1] in s && s[|s| - 1] in s;
    assert s[0] == a && s[|s| - 1] == b;
    assert |s| == 2;
  }

  /** `p` is `part` as a percentage of `whole`, and 0 when `whole` is 0. */
  predicate IsPercentage(p: real, part: nat, whole: nat) {
    && (whole == 0 ==> p == 0.0)
    && (whole > 0 ==> p * (whole as real) == (part as real) * 100.0)
    && 0.0 <= p <= 100.0
  }

  /** The report success rates: `part / whole * 100` if `whole > 0`,
      otherwise 0, computed exactly instead of in floating point. */
  function Percentage(part: nat, whole: nat): (p: real)
    requires part <= whole
    ensures IsPercentage(p, part, whole)
  {
    if whole == 0 then 0.0
    else
      var w := whole as real;
      var q := (part as real) / w;
      assert q * w == part as real;
      assert 0.0 <= q <= 1.0 by {
        assert (part as real) <= w;
      }
      q * 100.0
  }
}
