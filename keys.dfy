/**
  The string keys under which projections register shared units, and what can
  be proved about when two keys coincide (and so two projections share a unit).
 */
module Keys {
  import opened Values

  /** `_pre_delay_repr`: the after-update key of the one delay shared by every
      projection that delays a node's raw output. */
  const Sentinel: string := "_*_align_pre_spk_delay_*_"

  /** `_post_repr` of the managed post-aligned projections: `f'{syn.identifier} // {out.identifier}'`. */
  function PostRepr(synId: string, outId: string): (key: string)
    ensures |key| == |synId| + 4 + |outId|
    ensures key[..|synId|] == synId && key[|synId|..|synId| + 4] == " // " && key[|synId| + 4..] == outId
  {
    synId + " // " + outId
  }

  /** `_syn_id` of `ProjAlignPreMg1`: `f'{syn.identifier} // Delay'`. */
  function PreSynId(synId: string): (key: string)
    ensures |key| == |synId| + 9
    ensures key[..|synId|] == synId && key[|synId|..] == " // Delay"
  {
    synId + " // Delay"
  }

  /** `_syn_id` of `ProjAlignPreMg2`: `f'Delay({str(delay)}) // {syn.identifier}'`. */
  function PreMgSynId(time: DelayTime, synId: string): (key: string)
    ensures
      var t := DelayText(time);
      && |key| == 6 + |t| + 5 + |synId|
      && key[..6] == "Delay(" && key[6..6 + |t|] == t && key[6 + |t|..] == ") // " + synId
  {
    "Delay(" + DelayText(time) + ") // " + synId
  }

  /** What Python's `str` of a float can print: never a closing parenthesis and
      never `None`, and always a `.`, an exponent `e`, or the `n` of `inf`,
      `-inf` and `nan`. */
  predicate FloatText(text: string) {
    && ')' !in text && text != "None"
    && ('.' in text || 'e' in text || 'n' in text)
  }

  /** A delay argument whose float text, if any, is one Python can print. */
  predicate WellFormedDelay(time: DelayTime) {
    time.FloatDelay? ==> FloatText(time.text)
  }

  /** Python's `str` of a delay argument. That of `None` or of an int is
      non-empty; none of them holds a closing parenthesis. */
  function DelayText(time: DelayTime): (text: string)
    ensures time.FloatDelay? ==> text == time.text
    ensures !time.FloatDelay? ==> 0 < |text|
    ensures WellFormedDelay(time) ==> ')' !in text
  {
    match time
    case NoDelay => "None"
    case IntDelay(n) => IntText(n)
    case FloatDelay(text) => text
  }

  function Digit(d: nat): (c: char)
    requires d < 10
    ensures c as int == '0' as int + d
  {
    ('0' as int + d) as char
  }

  /** Python's `str` of a natural number: its decimal digits, without leading zeros. */
  function NatText(n: nat): (s: string)
    ensures 1 <= |s|
    ensures |s| == 1 <==> n < 10
    ensures forall i :: 0 <= i < |s| ==> '0' <= s[i] <= '9'
    decreases n
  {
    if n < 10 then [Digit(n)] else NatText(n / 10) + [Digit(n % 10)]
  }

  /** Python's `str` of an int: a `-` exactly for a negative number, then decimal digits. */
  function IntText(n: int): (s: string)
    ensures 0 < |s| && (s[0] == '-' <==> n < 0)
    ensures forall i :: (if n < 0 then 1 else 0) <= i < |s| ==> '0' <= s[i] <= '9'
  {
    if n < 0 then "-" + NatText(-n) else NatText(n)
  }

  // ---------------------------------------------------------------------------
  // When keys coincide

  /** Two numbers with the same decimal text are equal. */
  lemma {:induction false} NatTextInjective(a: nat, b: nat)
    requires NatText(a) == NatText(b)
    ensures a == b
    decreases a
  {
    var s := NatText(a);
    if a < 10 && b < 10 {
      assert Digit(a) == s[0] == Digit(b);
    } else if 10 <= a && 10 <= b {
      assert s == NatText(a / 10) + [Digit(a % 10)];
      assert s == NatText(b / 10) + [Digit(b % 10)];
      assert NatText(a / 10) == s[..|s| - 1] == NatText(b / 10);
      NatTextInjective(a / 10, b / 10);
      assert Digit(a % 10) == s[|s| - 1] == Digit(b % 10);
    }
  }

  /** The text of an int is made of a sign and decimal digits only. */
  lemma IntTextChars(n: int)
    ensures forall c :: c in IntText(n) ==> c == '-' || '0' <= c <= '9'
  {
  }

  /** Two ints with the same text are equal. */
  lemma {:induction false} IntTextInjective(a: int, b: int)
    requires IntText(a) == IntText(b)
    ensures a == b
  {
    var s := IntText(a);
    if a < 0 && b < 0 {
      assert NatText(-a) == s[1..] == NatText(-b);
      NatTextInjective(-a, -b);
    } else if 0 <= a && 0 <= b {
      NatTextInjective(a, b);
    }
  }

  /** Delay arguments have pairwise distinct texts. */
  lemma {:induction false} DelayTextInjective(t: DelayTime, u: DelayTime)
    requires WellFormedDelay(t) && WellFormedDelay(u)
    requires DelayText(t) == DelayText(u)
    ensures t == u
  {
    if t.FloatDelay? && u.IntDelay? {
      IntTextChars(u.steps);
    }
    if u.FloatDelay? && t.IntDelay? {
      IntTextChars(t.steps);
    }
    if t.IntDelay? {
      assert 0 <= t.steps ==> '0' <= NatText(t.steps)[0] <= '9';
    }
    if u.IntDelay? {
      assert 0 <= u.steps ==> '0' <= NatText(u.steps)[0] <= '9';
    }
    if t.IntDelay? && u.IntDelay? {
      IntTextInjective(t.steps, u.steps);
    }
  }

  /** In a managed post-aligned key whose synapse identifier holds no `/`, the
      first `/` is the one of the separator. */
  lemma FirstSlash(synId: string, outId: string)
    requires '/' !in synId
    ensures PostRepr(synId, outId)[|synId| + 1] == '/'
    ensures forall i :: 0 <= i <= |synId| ==> PostRepr(synId, outId)[i] != '/'
  {
  }

  /** In a `ProjAlignPreMg2` key, the first `)` after `Delay(` is the one
      closing the delay's text. */
  lemma FirstParen(time: DelayTime, synId: string)
    requires WellFormedDelay(time)
    ensures PreMgSynId(time, synId)[6 + |DelayText(time)|] == ')'
    ensures forall i :: 6 <= i < 6 + |DelayText(time)| ==> PreMgSynId(time, synId)[i] != ')'
  {
  }

  /** Managed post-aligned keys identify their synapse and output descriptors
      when the synapse identifier holds no `/`. */
  lemma {:induction false} PostReprInjective(synA: string, outA: string, synB: string, outB: string)
    requires '/' !in synA && '/' !in synB
    requires PostRepr(synA, outA) == PostRepr(synB, outB)
    ensures synA == synB && outA == outB
  {
    var k := PostRepr(synA, outA);
    FirstSlash(synA, outA);
    FirstSlash(synB, outB);
    assert |synA| == |synB|;
    assert synA == k[..|synA|] == synB;
    assert outA == k[|synA| + 4..] == outB;
  }

  /** Without that condition, two different descriptor pairs can produce the same
      key, and the second projection would then reuse the first one's unit. */
  lemma PostReprCollision()
    ensures "Expon //" != "Expon"
    ensures PostRepr("Expon //", "COBA") == PostRepr("Expon", "// COBA")
  {
  }

  /** `ProjAlignPreMg1` keys identify the synapse descriptor. */
  lemma PreSynIdInjective(synA: string, synB: string)
    requires PreSynId(synA) == PreSynId(synB)
    ensures synA == synB
  {
  }

  /** No `ProjAlignPreMg1` key is the shared-delay key. */
  lemma PreSynIdNotSentinel(synId: string)
    ensures PreSynId(synId) != Sentinel
  {
  }

  /** `ProjAlignPreMg2` keys identify the delay and the synapse descriptor. */
  lemma {:induction false} PreMgSynIdInjective(timeA: DelayTime, synA: string, timeB: DelayTime, synB: string)
    requires WellFormedDelay(timeA) && WellFormedDelay(timeB)
    requires PreMgSynId(timeA, synA) == PreMgSynId(timeB, synB)
    ensures timeA == timeB && synA == synB
  {
    var k, ta, tb := PreMgSynId(timeA, synA), DelayText(timeA), DelayText(timeB);
    FirstParen(timeA, synA);
    FirstParen(timeB, synB);
    assert |ta| == |tb|;
    assert ta == k[6..6 + |ta|] == tb;
    DelayTextInjective(timeA, timeB);
    assert synA == (") // " + synA)[5..] == k[6 + |ta|..][5..] == (") // " + synB)[5..] == synB;
  }
}
