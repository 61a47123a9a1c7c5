/** Dropping the oldest messages until a prompt fits the model's context window. */
module PromptFitting {

  /** A message body: plain text, or content blocks with their count and their JSON text. */
  datatype Content = Text(text: string) | Blocks(count: nat, json: string)

  datatype Message = Message(role: string, content: Content)

  /** Four characters to a token, and at least one. */
  function EstTokens(length: nat): nat {
    if length / 4 < 1 then 1 else length / 4
  }

  /** The estimate that decides whether to truncate. */
  function Estimate(m: Message): nat {
    EstTokens(if m.content.Text? then |m.content.text| else |m.content.json|)
  }

  /** The estimate inside the truncation loop: blocks count by their number, not by their JSON. */
  function LoopEstimate(m: Message): nat {
    EstTokens(if m.content.Text? then |m.content.text| else m.content.count)
  }

  function Total(ms: seq<Message>): nat {
    if ms == [] then 0 else Estimate(ms[0]) + Total(ms[1..])
  }

  function LoopTotal(ms: seq<Message>): nat {
    if ms == [] then 0 else LoopEstimate(ms[0]) + LoopTotal(ms[1..])
  }

  /** How many of the newest messages are kept. */
  function Keep(system: string, ms: seq<Message>, available: int): (n: nat)
    ensures n <= |ms|
  {
    if EstTokens(|system|) + Total(ms) <= available then |ms| else KeepInLoop(system, ms, available)
  }

  function KeepInLoop(system: string, ms: seq<Message>, available: int): (n: nat)
    ensures n <= |ms|
  {
    if ms == [] || EstTokens(|system|) + LoopTotal(ms) <= available then |ms|
    else KeepInLoop(system, ms[1..], available)
  }

  method TruncateMessages(system: string, ms: seq<Message>, limit: int, reserve: int) returns (kept: seq<Message>)
    ensures kept == ms[|ms| - Keep(system, ms, limit - reserve)..]
  {
    var available := limit - reserve;
    var sysTokens := EstTokens(|system|);
    var total := 0;
    assert ms[0..] == ms;
    for i := 0 to |ms|
      invariant Total(ms) == total + Total(ms[i..])
    {
      assert ms[i..][1..] == ms[i + 1..];
      total := total + Estimate(ms[i]);
    }
    if sysTokens + total <= available { return ms; }
    kept := ms;
    while kept != [] && sysTokens + LoopTotal(kept) > available
      invariant |kept| <= |ms| && kept == ms[|ms| - |kept|..]
      invariant KeepInLoop(system, ms, available) == KeepInLoop(system, kept, available)
    {
      kept := kept[1..];
    }
  }

  lemma {:induction false} LoopKeepsTheMost(system: string, ms: seq<Message>, available: int, j: nat)
    requires j <= |ms|
    ensures var n := KeepInLoop(system, ms, available);
      && (n > 0 ==> EstTokens(|system|) + LoopTotal(ms[|ms| - n..]) <= available)
      && (j > n ==> EstTokens(|system|) + LoopTotal(ms[|ms| - j..]) > available)
    decreases |ms|
  {
    hide LoopEstimate, EstTokens;
    assert ms[0..] == ms;
    if ms != [] && EstTokens(|system|) + LoopTotal(ms) > available {
      var rest := ms[1..];
      var n := KeepInLoop(system, rest, available);
      LoopKeepsTheMost(system, rest, available, if j <= |rest| then j else 0);
      assert ms[|ms| - n..] == rest[|rest| - n..];
      assert j <= |rest| ==> ms[|ms| - j..] == rest[|rest| - j..];
    }
  }

  lemma {:induction false} TextIsMeasuredAlike(ms: seq<Message>)
    requires forall m :: m in ms ==> m.content.Text?
    ensures LoopTotal(ms) == Total(ms)
  {
    if ms != [] { TextIsMeasuredAlike(ms[1..]); }
  }

  /** A text of 4 characters or more takes a quarter of its length, rounded down, and a shorter one a single token. */
  lemma TokensAreQuarters(length: nat)
    ensures length >= 4 ==> 4 * EstTokens(length) <= length < 4 * EstTokens(length) + 4
    ensures length < 4 ==> EstTokens(length) == 1
  {
  }

  /** A prompt is measured message by message: text by its length, blocks by the length of their JSON, and in the loop
      by their number. */
  lemma {:induction false} MeasuresAddUp(ms: seq<Message>, role: string, text: string, count: nat, json: string)
    ensures Total([]) == 0 && LoopTotal([]) == 0
    ensures Total(ms + [Message(role, Text(text))]) == Total(ms) + EstTokens(|text|)
    ensures LoopTotal(ms + [Message(role, Text(text))]) == LoopTotal(ms) + EstTokens(|text|)
    ensures Total(ms + [Message(role, Blocks(count, json))]) == Total(ms) + EstTokens(|json|)
    ensures LoopTotal(ms + [Message(role, Blocks(count, json))]) == LoopTotal(ms) + EstTokens(count)
  {
    hide EstTokens;
    OneMoreMessage(ms, Message(role, Text(text)));
    OneMoreMessage(ms, Message(role, Blocks(count, json)));
  }

  lemma {:induction false} OneMoreMessage(ms: seq<Message>, m: Message)
    ensures Total(ms + [m]) == Total(ms) + Estimate(m) && LoopTotal(ms + [m]) == LoopTotal(ms) + LoopEstimate(m)
  {
    hide Estimate, LoopEstimate;
    if ms == [] {
      assert [] + [m] == [m] && [m][1..] == [];
    } else {
      assert (ms + [m])[1..] == ms[1..] + [m];
      OneMoreMessage(ms[1..], m);
    }
  }

  /** A prompt that fits is sent whole. */
  lemma FittingIsSentWhole(system: string, ms: seq<Message>, available: int)
    requires Fits(system, ms, available)
    ensures Keep(system, ms, available) == |ms|
  {
  }

  /** The newest n messages. */
  function Newest(ms: seq<Message>, n: nat): seq<Message>
    requires n <= |ms|
  {
    ms[|ms| - n..]
  }

  predicate Fits(system: string, ms: seq<Message>, available: int) {
    EstTokens(|system|) + Total(ms) <= available
  }

  predicate LoopFits(system: string, ms: seq<Message>, available: int) {
    EstTokens(|system|) + LoopTotal(ms) <= available
  }

  lemma {:induction false} FewerFit(ms: seq<Message>, m: nat, n: nat)
    requires m <= n <= |ms|
    ensures Total(Newest(ms, m)) <= Total(Newest(ms, n))
    decreases n
  {
    if m < n {
      assert Newest(ms, n)[1..] == Newest(ms, n - 1);
      FewerFit(ms, m, n - 1);
    }
  }

  /** What is sent fits the window if and only if the system prompt does and no run of newest messages that the
      loop's own estimate accepts is over the window by the estimate that counts. */
  lemma SentFitsExactly(system: string, ms: seq<Message>, available: int)
    ensures Fits(system, Newest(ms, Keep(system, ms, available)), available) <==>
      && EstTokens(|system|) <= available
      && forall j: nat | j <= |ms| ::
           LoopFits(system, Newest(ms, j), available) ==> Fits(system, Newest(ms, j), available)
  {
    hide EstTokens, Total, LoopTotal;
    var n := Keep(system, ms, available);
    assert Newest(ms, |ms|) == ms;
    if Fits(system, Newest(ms, n), available) {
      forall j: nat | j <= |ms| && LoopFits(system, Newest(ms, j), available)
        ensures Fits(system, Newest(ms, j), available)
      {
        if !Fits(system, ms, available) { LoopKeepsTheMost(system, ms, available, j); }
        FewerFit(ms, j, n);
      }
    } else {
      assert !Fits(system, ms, available);
      LoopKeepsTheMost(system, ms, available, 0);
      if n == 0 {
        NothingToFit();
        assert Newest(ms, 0) == [];
      } else {
        assert LoopFits(system, Newest(ms, n), available);
      }
    }
  }

  lemma NothingToFit()
    ensures Total([]) == 0
  {
  }

  /** With text messages only, what is kept is the longest run of newest messages that fits, and what is sent
      fits if and only if the system prompt does. */
  lemma KeepsTheLongestFit(system: string, ms: seq<Message>, available: int, j: nat)
    requires (forall m :: m in ms ==> m.content.Text?) && j <= |ms|
    ensures var n := Keep(system, ms, available);
      && (Fits(system, Newest(ms, n), available) <==> EstTokens(|system|) <= available)
      && (j > n ==> !Fits(system, Newest(ms, j), available))
  {
    hide EstTokens, Total, LoopTotal;
    SentFitsExactly(system, ms, available);
    assert Newest(ms, |ms|) == ms;
    forall i: nat | i <= |ms| ensures LoopTotal(Newest(ms, i)) == Total(Newest(ms, i)) {
      TextIsMeasuredAlike(Newest(ms, i));
    }
    if !Fits(system, ms, available) {
      LoopKeepsTheMost(system, ms, available, j);
    }
  }

  /** A prompt found oversized is nevertheless sent whole exactly when the loop's estimate, which counts blocks by
      their number, accepts it. */
  lemma OversizedIsSentWhole(system: string, ms: seq<Message>, available: int)
    requires !Fits(system, ms, available) && ms != []
    ensures Keep(system, ms, available) == |ms| <==> LoopFits(system, ms, available)
  {
  }

  /** One block of 400 characters passes a window of two tokens. */
  lemma BlocksOverflow(role: string, json: string)
    requires |json| == 400
    ensures var ms := [Message(role, Blocks(1, json))];
      Keep("", ms, 2) == 1 && !Fits("", Newest(ms, 1), 2)
  {
    var ms := [Message(role, Blocks(1, json))];
    assert ms[1..] == [] && Newest(ms, 1) == ms;
    assert LoopEstimate(ms[0]) == 1 && Estimate(ms[0]) == 100;
    assert LoopTotal(ms[1..]) == 0 && Total(ms[1..]) == 0;
    assert Total(ms) == 100 && LoopTotal(ms) == 1;
  }

  /** Dropping the text in front of it does not help against an oversized block. */
  lemma TruncatedAndStillOver(role: string, text: string, json: string)
    requires |text| == 4000 && |json| == 400
    ensures var ms := [Message(role, Text(text)), Message(role, Blocks(1, json))];
      Keep("", ms, 2) == 1 && !Fits("", Newest(ms, 1), 2)
  {
    var ms := [Message(role, Text(text)), Message(role, Blocks(1, json))];
    var block := ms[1..];
    assert block == [ms[1]] && block[1..] == [] && Newest(ms, 1) == block;
    assert Total(block) == 100 && LoopTotal(block) == 1;
    assert Total(ms) == 1000 + Total(block) && LoopTotal(ms) == 1000 + LoopTotal(block);
    assert KeepInLoop("", ms, 2) == KeepInLoop("", block, 2);
  }

  /** A system prompt over the window is sent even though every message is dropped. */
  lemma SystemAloneIsOver(system: string, ms: seq<Message>, available: int)
    requires EstTokens(|system|) > available
    ensures Keep(system, ms, available) == 0 && !Fits(system, [], available)
  {
    hide EstTokens;
    LoopKeepsTheMost(system, ms, available, 0);
  }
}
