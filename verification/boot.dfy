/**
  The loading screen's boot typer: a message index and a character index
  that reveal the boot messages one prefix at a time. One call of the
  typing callback is one `Step`; the delays between calls are not modelled.
 */
module Boot {

  /** The simulated boot messages, in display order. */
  const BootMessages: seq<string> := [
    "Initializing system...",
    "Checking dependencies...",
    "Loading assets...",
    "Establishing connection...",
    "System ready!"
  ]

  /** The closure's two counters together with the two pieces of component
      state they drive. */
  datatype Typer = Typer(index: nat, charIndex: nat, messages: seq<string>, isTyping: bool)

  const Start: Typer := Typer(0, 0, [], false)

  function Min(a: int, b: int): int {
    if a <= b then a else b
  }

  /** One call of the typing callback. While a message is unfinished it
      replaces the entry at the current index by the next prefix; once the
      whole message has been shown it clears the typing flag and moves on.
      The array slice clamps to the log's length, as JavaScript's does. */
  function Step(boot: seq<string>, t: Typer): (r: Typer)
    ensures t.index < |boot| ==> r.index == t.index || r.index == t.index + 1
    ensures t.index >= |boot| ==> r == t
    ensures t.index < |boot| ==> (r.isTyping <==> r.charIndex > 0)
  {
    if t.index < |boot| then
      var m := boot[t.index];
      if t.charIndex <= |m| then
        Typer(t.index, t.charIndex + 1, t.messages[..Min(t.index, |t.messages|)] + [m[..t.charIndex]], true)
      else
        Typer(t.index + 1, 0, t.messages, false)
    else t
  }

  /** `n` calls of the callback in a row. */
  function Iterate(boot: seq<string>, t: Typer, n: nat): Typer {
    if n == 0 then t else Step(boot, Iterate(boot, t, n - 1))
  }

  predicate IsPrefix(p: string, s: string) {
    |p| <= |s| && p == s[..|p|]
  }

  /** The typer's invariant: finished messages are shown in full, the one
      being typed shows the prefix before the character index, and the
      typing flag is on exactly while a prefix of the current message is
      visible. */
  predicate Valid(boot: seq<string>, t: Typer) {
    && t.index <= |boot|
    && (t.index == |boot| ==> t.charIndex == 0)
    && (t.index < |boot| ==> t.charIndex <= |boot[t.index]| + 1)
    && (t.isTyping <==> t.charIndex > 0)
    && (t.charIndex == 0 ==> |t.messages| == t.index)
    && (t.charIndex > 0 ==> |t.messages| == t.index + 1
                            && t.messages[t.index] == boot[t.index][..t.charIndex - 1])
    && (forall i :: 0 <= i < t.index ==> t.messages[i] == boot[i])
  }

  /** Ticks taken by the messages of `s`: each message of length n passes
      through n + 1 visible prefixes and one finishing call. */
  function Ticks(s: seq<string>): (n: nat)
    ensures n >= 2 * |s|
  {
    if |s| == 0 then 0 else Ticks(s[..|s| - 1]) + |s[|s| - 1]| + 2
  }

  /** Characters and the finishing call still ahead in the current message. */
  function CharsLeft(boot: seq<string>, t: Typer): nat
    requires Valid(boot, t)
  {
    if t.index < |boot| then |boot[t.index]| + 1 - t.charIndex else 0
  }

  // ----- lemmas ------------------------------------------------------------

  lemma StartValid(boot: seq<string>)
    ensures Valid(boot, Start)
  {
  }

  lemma StepValid(boot: seq<string>, t: Typer)
    requires Valid(boot, t)
    ensures Valid(boot, Step(boot, t))
  {
    if t.index < |boot| && t.charIndex <= |boot[t.index]| {
      var r := Step(boot, t);
      assert t.messages[..Min(t.index, |t.messages|)] == t.messages[..t.index];
      assert forall i :: 0 <= i < t.index ==> r.messages[i] == t.messages[i];
    }
  }

  /** Every visible entry is a prefix of the boot message at the same index. */
  lemma VisiblePrefixes(boot: seq<string>, t: Typer)
    requires Valid(boot, t)
    ensures |t.messages| <= |boot|
    ensures forall i :: 0 <= i < |t.messages| ==> IsPrefix(t.messages[i], boot[i])
  {
    forall i | 0 <= i < |t.messages| ensures IsPrefix(t.messages[i], boot[i]) {
      if i < t.index {
        assert boot[i][..|boot[i]|] == boot[i];
      }
    }
  }

  /** Starting a message, k + 1 calls show its first k characters with the
      typing flag on: the message goes through |m| + 1 visible states. */
  lemma {:induction false} Reveal(boot: seq<string>, t: Typer, k: nat)
    requires Valid(boot, t) && t.index < |boot| && t.charIndex == 0
    requires k <= |boot[t.index]|
    ensures Iterate(boot, t, k + 1) == Typer(t.index, k + 1, t.messages + [boot[t.index][..k]], true)
  {
    var m := boot[t.index];
    if k == 0 {
      assert t.messages[..Min(t.index, |t.messages|)] == t.messages;
    } else {
      Reveal(boot, t, k - 1);
      var u := Iterate(boot, t, k);
      assert u.messages[..Min(u.index, |u.messages|)] == t.messages;
    }
  }

  /** The call after the last prefix finishes the message: the next message
      starts from an empty prefix and the flag drops. */
  lemma FinishMessage(boot: seq<string>, t: Typer)
    requires Valid(boot, t) && t.index < |boot| && t.charIndex == 0
    ensures Iterate(boot, t, |boot[t.index]| + 2)
         == Typer(t.index + 1, 0, t.messages + [boot[t.index]], false)
  {
    var m := boot[t.index];
    Reveal(boot, t, |m|);
    assert m[..|m|] == m;
  }

  /** After the last message nothing changes any more and the log equals the
      boot messages. */
  lemma Finished(boot: seq<string>, t: Typer)
    requires Valid(boot, t) && t.index == |boot|
    ensures t.messages == boot && !t.isTyping
    ensures Step(boot, t) == t
  {
  }

  lemma IterateSucc(boot: seq<string>, t: Typer, n: nat)
    ensures Iterate(boot, t, n + 1) == Step(boot, Iterate(boot, t, n))
  {
  }

  lemma TicksSnoc(s: seq<string>, k: nat)
    requires k < |s|
    ensures Ticks(s[..k + 1]) == Ticks(s[..k]) + |s[k]| + 2
  {
    assert s[..k + 1][..k] == s[..k];
  }

  /** Each call adds one to the count of calls spent so far. */
  lemma StepTicks(boot: seq<string>, t: Typer, calls: nat)
    requires Valid(boot, t) && t.index < |boot|
    requires calls == Ticks(boot[..t.index]) + t.charIndex
    ensures calls + 1 == Ticks(boot[..Step(boot, t).index]) + Step(boot, t).charIndex
  {
    if t.charIndex > |boot[t.index]| {
      TicksSnoc(boot, t.index);
    }
  }

  /** Runs the typer from its start until every message is shown, counting
      the callback calls. */
  method RunBoot(boot: seq<string>) returns (t: Typer, calls: nat)
    ensures t == Iterate(boot, Start, calls)
    ensures t.messages == boot && !t.isTyping && t.index == |boot|
    ensures Step(boot, t) == t
    ensures calls == Ticks(boot)
  {
    t, calls := Start, 0;
    while t.index < |boot|
      invariant Valid(boot, t)
      invariant t == Iterate(boot, Start, calls)
      invariant calls == Ticks(boot[..t.index]) + t.charIndex
      decreases |boot| - t.index, CharsLeft(boot, t)
    {
      StepValid(boot, t);
      StepTicks(boot, t, calls);
      IterateSucc(boot, Start, calls);
      t, calls := Step(boot, t), calls + 1;
    }
    Finished(boot, t);
    assert boot[..|boot|] == boot;
  }

  /** The five boot messages take 112 callback calls. */
  lemma BootTicks(boot: seq<string>)
    requires boot == BootMessages
    ensures Ticks(boot) == 112
  {
    assert |boot[0]| == 22 && |boot[1]| == 24 && |boot[2]| == 17 && |boot[3]| == 26 && |boot[4]| == 13;
    assert boot[..0] == [];
    TicksSnoc(boot, 0);
    TicksSnoc(boot, 1);
    TicksSnoc(boot, 2);
    TicksSnoc(boot, 3);
    TicksSnoc(boot, 4);
    assert boot[..5] == boot;
  }
}
