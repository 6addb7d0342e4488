/**
 * Message identifiers: `{conversationId}:user:{t}` and
 * `{conversationId}:assistant:{t}`, with `t` a millisecond reading
 * rendered in decimal as a JavaScript template literal does.
 */
module Ids {

  /** The decimal digit character for `d`. */
  function Digit(d: nat): (c: char)
    requires d < 10
    ensures '0' <= c <= '9'
    ensures c as int - '0' as int == d
  {
    ('0' as int + d) as char
  }

  /** The value of a digit character. */
  function DigitValue(c: char): (d: nat)
    requires '0' <= c <= '9'
    ensures d < 10 && Digit(d) == c
  {
    c as int - '0' as int
  }

  predicate IsDigits(s: string)
  {
    forall i :: 0 <= i < |s| ==> '0' <= s[i] <= '9'
  }

  /** The number a string of decimal digits denotes, most significant digit first. */
  function DigitsValue(s: string): (n: nat)
    requires IsDigits(s)
  {
    if s == [] then 0 else 10 * DigitsValue(s[..|s| - 1]) + DigitValue(s[|s| - 1])
  }

  /**
   * Decimal rendering of a natural number, as a JavaScript template literal
   * renders an integral millisecond count: it reads back as `n` and has a
   * leading zero only when it is "0" itself.
   */
  function Decimal(n: nat): (s: string)
    ensures 1 <= |s| && IsDigits(s)
    ensures DigitsValue(s) == n
    ensures s[0] == '0' <==> n == 0
    ensures n < 10 <==> |s| == 1
  {
    if n < 10 then [Digit(n)]
    else
      var prefix := Decimal(n / 10);
      var s := prefix + [Digit(n % 10)];
      assert s[..|s| - 1] == prefix;
      s
  }

  /** Distinct numbers render to distinct strings: the rendering reads back. */
  lemma DecimalInjective(a: nat, b: nat)
    requires Decimal(a) == Decimal(b)
    ensures a == b
  {
    assert a == DigitsValue(Decimal(a)) == DigitsValue(Decimal(b)) == b;
  }

  /** `${conversationId}:user:${t}`. */
  function UserMessageId(conversationId: string, t: nat): (id: string)
  {
    conversationId + ":user:" + Decimal(t)
  }

  /** `${conversationId}:assistant:${t}`. */
  function AssistantMessageId(conversationId: string, t: nat): (id: string)
  {
    conversationId + ":assistant:" + Decimal(t)
  }

  /** A user id is the conversation id, the `:user:` segment, then digits that read back as `t`. */
  lemma UserMessageIdReadsBack(conversationId: string, t: nat)
    ensures var id, n := UserMessageId(conversationId, t), |conversationId|;
      |id| > n + 6 && id[..n] == conversationId && id[n..n + 6] == ":user:" &&
      IsDigits(id[n + 6..]) && DigitsValue(id[n + 6..]) == t
  {
    var id, n := UserMessageId(conversationId, t), |conversationId|;
    assert id[n + 6..] == Decimal(t);
  }

  /** An assistant id is the conversation id, the `:assistant:` segment, then digits that read back as `t`. */
  lemma AssistantMessageIdReadsBack(conversationId: string, t: nat)
    ensures var id, n := AssistantMessageId(conversationId, t), |conversationId|;
      |id| > n + 11 && id[..n] == conversationId && id[n..n + 11] == ":assistant:" &&
      IsDigits(id[n + 11..]) && DigitsValue(id[n + 11..]) == t
  {
    var id, n := AssistantMessageId(conversationId, t), |conversationId|;
    assert id[n + 11..] == Decimal(t);
  }

  /** A user id and an assistant id of the same conversation never coincide, whatever the clock says. */
  lemma UserAndAssistantIdsDiffer(conversationId: string, t1: nat, t2: nat)
    ensures UserMessageId(conversationId, t1) != AssistantMessageId(conversationId, t2)
  {
    var n := |conversationId|;
    assert UserMessageId(conversationId, t1)[n + 1] == 'u';
    assert AssistantMessageId(conversationId, t2)[n + 1] == 'a';
  }

  /** Ids of one role and conversation collide exactly when the clock readings are equal. */
  lemma UserIdsCollideIffSameTime(conversationId: string, t1: nat, t2: nat)
    ensures UserMessageId(conversationId, t1) == UserMessageId(conversationId, t2) <==> t1 == t2
  {
    if UserMessageId(conversationId, t1) == UserMessageId(conversationId, t2) {
      var k := |conversationId + ":user:"|;
      assert Decimal(t1) == UserMessageId(conversationId, t1)[k..];
      assert Decimal(t2) == UserMessageId(conversationId, t2)[k..];
      DecimalInjective(t1, t2);
    }
  }

  lemma AssistantIdsCollideIffSameTime(conversationId: string, t1: nat, t2: nat)
    ensures AssistantMessageId(conversationId, t1) == AssistantMessageId(conversationId, t2) <==> t1 == t2
  {
    if AssistantMessageId(conversationId, t1) == AssistantMessageId(conversationId, t2) {
      var k := |conversationId + ":assistant:"|;
      assert Decimal(t1) == AssistantMessageId(conversationId, t1)[k..];
      assert Decimal(t2) == AssistantMessageId(conversationId, t2)[k..];
      DecimalInjective(t1, t2);
    }
  }
}
