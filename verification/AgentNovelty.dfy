/**
 The command loop detector at work. On every run, wherever the process crashes: from a point on where an
 executed command cannot be repeated, nothing is executed that repeats it, however it is respelled, wrapped
 in banners, or cut to another length. In runs that crash only between methods every executed command has
 reached such a point before the next one is executed.
 */
module AgentNovelty {
  import opened Basics
  import opened AgentModel
  import opened AgentRuns
  import opened AgentRepeats
  import opened AgentQuiescent
  import opened CommandForms
  import opened CommandLoop
  import opened CommandText

  predicate IsCommand(x: Action, text: string) {
    !x.isCall && x.text == text
  }

  predicate Ran(s: System, text: string) {
    exists i | 0 <= i < |s.executed| :: IsCommand(s.executed[i], text)
  }

  predicate RanBetween(s: System, t: System, text: string) {
    exists j | |s.executed| <= j < |t.executed| :: IsCommand(t.executed[j], text)
  }

  /** At point `m` the first command has been executed and cannot be repeated; the second is executed by `n`. */
  ghost predicate Follows(states: seq<System>, m: nat, n: nat, first: string, second: string) {
    && m <= n < |states| && Ran(states[m], first) && !Repeatable(Redundant, states[m], first)
    && RanBetween(states[m], states[n], second)
  }

  ghost predicate InOrder(states: seq<System>, labels: seq<Label>, first: string, second: string) {
    Run(Redundant, states, labels) && exists m, n :: Follows(states, m, n, first, second)
  }

  lemma NoRepeat(states: seq<System>, labels: seq<Label>, first: string, second: string)
    requires InOrder(states, labels, first, second)
    ensures !Redundant(second, first)
  {
    hide Run, Redundant, Repeatable, Ran;
    var m: nat, n: nat :| Follows(states, m, n, first, second);
    NoRepeatAfter(Redundant, states, labels, m, n, first);
    var j :| |states[m].executed| <= j < |states[n].executed| && IsCommand(states[n].executed[j], second);
  }

  /** No two such commands share a normal form, unless it is empty. */
  lemma FormsDiffer(states: seq<System>, labels: seq<Label>, first: string, second: string)
    requires InOrder(states, labels, first, second)
    ensures Normal(first) != Normal(second) || Normal(second) == ""
  {
    hide Normal, InOrder;
    NoRepeat(states, labels, first, second);
    if Normal(first) == Normal(second) {
      SameFormIsRedundant(second, first);
    }
  }

  /** Not in another letter case or spacing. */
  lemma NoRespelling(states: seq<System>, labels: seq<Label>, first: string, second: string)
    requires InOrder(states, labels, first, second)
    ensures Words(Lower(first)) != Words(Lower(second)) || Normal(second) == ""
  {
    hide InOrder, Normal;
    FormsDiffer(states, labels, first, second);
    if Words(Lower(first)) == Words(Lower(second)) {
      SpellingIgnored(first, second);
    }
  }

  /** Not behind a banner. */
  lemma NoBanner(states: seq<System>, labels: seq<Label>, text: string, quote: char, first: string)
    requires InOrder(states, labels, first, Banner(text, quote) + " " + first)
    requires IsQuote(quote) && AllOf(text, IsQuotable)
    requires Collapse(Lower(first)) != "" && Collapse(Lower(first))[0] != ';'
    ensures Normal(first) == ""
  {
    hide Normal, InOrder, Banner, Split, Join;
    FormsDiffer(states, labels, first, Banner(text, quote) + " " + first);
    BannerIgnored(text, quote, first);
  }

  /** Not with other cosmetics behind the same substance. */
  lemma NoOtherCosmetics(
    states: seq<System>, labels: seq<Label>, first: string, second: string,
    core: seq<string>, x: seq<string>, y: seq<string>)
    requires InOrder(states, labels, first, second)
    requires Words(Peeled(Collapse(Lower(first)))) == core + x && Words(Peeled(Collapse(Lower(second)))) == core + y
    requires Substantive(core) && Clean(x) == [] && Clean(y) == []
    ensures Join(core) == ""
  {
    hide InOrder, Normal;
    FormsDiffer(states, labels, first, second);
    CosmeticsIgnored(first, second, core, x, y);
  }

  // ---- Runs that crash only between methods --------------------------------------------------------

  lemma {:induction false} ExecutedGrows(
    overlap: Overlap, states: seq<System>, labels: seq<Label>, m: nat, n: nat)
    requires Run(overlap, states, labels) && m <= n < |states|
    ensures states[m].executed <= states[n].executed
  {
    hide Step;
    if m < n {
      ExecutedGrows(overlap, states, labels, m, n - 1);
      assert Step(overlap, states[n - 1], labels[n - 1]) == Some(states[n]);
      StepExecutedGrows(overlap, states[n - 1], labels[n - 1]);
    }
  }

  /** The step that executed action `j`. */
  lemma {:induction false} ExecutionOf(overlap: Overlap, states: seq<System>, labels: seq<Label>, n: nat, j: nat)
    returns (k: nat)
    requires Run(overlap, states, labels) && n < |states| && j < |states[n].executed|
    ensures k < n && |states[k].executed| == j && states[k + 1].executed != states[k].executed
  {
    hide Step;
    assert n > 0;
    assert Step(overlap, states[n - 1], labels[n - 1]) == Some(states[n]);
    StepExecutedGrows(overlap, states[n - 1], labels[n - 1]);
    if j < |states[n - 1].executed| {
      k := ExecutionOf(overlap, states, labels, n - 1, j);
    } else {
      k := n - 1;
    }
  }

  /** Of two commands executed in a quiet run, the first cannot be repeated when the second is executed. */
  lemma QuietInOrder(states: seq<System>, labels: seq<Label>, n: nat, i: nat, j: nat)
    requires QuietRun(Redundant, states, labels) && n < |states| && i < j < |states[n].executed|
    requires !states[n].executed[i].isCall && !states[n].executed[j].isCall
    ensures InOrder(states, labels, states[n].executed[i].text, states[n].executed[j].text)
  {
    hide Step, Repeatable, Redundant, Guarded, Telling, Sound, Exact, OnePending, AllAnnounced;
    var k := ExecutionOf(Redundant, states, labels, n, j);
    QuietRunCalm(Redundant, states, labels, k);
    assert Step(Redundant, states[k], labels[k]) == Some(states[k + 1]);
    ExecutedIsTold(Redundant, states[k], labels[k]);
    ExecutedGrows(Redundant, states, labels, k, n);
    assert states[k].executed[i] == states[n].executed[i];
    assert IsCommand(states[k].executed[i], states[n].executed[i].text);
    assert IsCommand(states[n].executed[j], states[n].executed[j].text);
    assert Follows(states, k, n, states[n].executed[i].text, states[n].executed[j].text);
  }
}
