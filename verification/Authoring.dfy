/** Freezing an authoring request: the completion budget, and how much history the prompt carries
    (backend/internal/authoring/run.go: freezeInput, completionCap). What a prompt measures in runes
    is a function of the history it carries; the completion policy is a function of a document size. */
module Authoring {
  import opened Basics

  datatype Mode = Recommend | Refine

  datatype Turn = Turn(done: bool, request: string, reply: string)

  datatype Wire = Wire(request: string, reply: string)

  /** `documentChars` measures the current document; `outputChars` is the document size a batch of eight
      is budgeted for; `candidates` is already normalized. */
  datatype Request = Request(mode: Mode, candidates: nat, documentChars: nat, outputChars: nat)

  /** The prompt's size under a history, and the size of the prompt without the owner's words. */
  datatype Sizes = Sizes(prompt: seq<Wire> -> nat, base: nat)

  type Policy = (Mode, int) -> int

  datatype Frozen = Frozen(history: seq<Wire>, completion: int, prompt: nat)

  const MAX_DOCUMENT := 40000
  const MAX_MODEL_PROMPT := 32000
  const MAX_HISTORY := 4000
  const MAX_OWNER_PROMPT := 2000
  const CANDIDATES := 8

  // ---- the completion cap ------------------------------------------------------------------

  /** What the policy plans, before the context is looked at. */
  function Planned(policy: Policy, r: Request): int {
    if r.mode.Recommend? then policy(Refine, r.outputChars / CANDIDATES * r.candidates) else policy(r.mode, r.documentChars)
  }

  /** What a known context leaves once the longest owner prompt is set aside. */
  function ContextRoom(sizes: Sizes, context: int): int { context - (sizes.base + MAX_OWNER_PROMPT * 2 + 256) }

  /** The most the plan and a known context both allow. */
  function Fitting(policy: Policy, r: Request, sizes: Sizes, context: int): int {
    if context > 0 then Min(Planned(policy, r), ContextRoom(sizes, context)) else Planned(policy, r)
  }

  /** A batch of more than eight has to be planned whole and in a known context; and every request needs
      a least completion, for a batch one for each candidate. */
  predicate Unbudgeted(policy: Policy, r: Request, sizes: Sizes, context: int) {
    var fitting := Fitting(policy, r, sizes, context);
    || (r.mode.Recommend? && r.candidates > CANDIDATES && (context <= 0 || fitting < Planned(policy, r)))
    || fitting < 1024 || (r.mode.Recommend? && fitting < 512 * r.candidates)
  }

  /** run.go: completionCap; 0 is its refusal. `context` 0 is an unknown one. */
  method CompletionCap(policy: Policy, r: Request, sizes: Sizes, context: int) returns (cap: int)
    ensures cap > 0 ==> cap >= 1024 && cap <= Planned(policy, r) && (context > 0 ==> cap <= ContextRoom(sizes, context))
    ensures cap > 0 && r.mode.Recommend? ==> cap >= 512 * r.candidates
    ensures cap > 0 && r.mode.Recommend? && r.candidates > CANDIDATES ==> context > 0 && cap == Planned(policy, r)
    ensures cap == if Unbudgeted(policy, r, sizes, context) then 0 else Fitting(policy, r, sizes, context)
  {
    if r.mode.Recommend? && r.candidates > CANDIDATES && context <= 0 { return 0; }
    if r.mode.Recommend? {
      var outputChars := r.outputChars / CANDIDATES * r.candidates;
      cap := policy(Refine, outputChars);
    } else {
      cap := policy(r.mode, r.documentChars);
    }
    var planned := cap;
    if context > 0 {
      var required := sizes.base + MAX_OWNER_PROMPT * 2 + 256;
      var room := context - required;
      if room < cap { cap := room; }
    }
    if r.mode.Recommend? && r.candidates > CANDIDATES && cap < planned { return 0; }
    if cap < 1024 || (r.mode.Recommend? && cap < 512 * r.candidates) { return 0; }
  }

  // ---- the history -------------------------------------------------------------------------

  function Done(turns: seq<Turn>): seq<Turn> {
    if turns == [] then [] else (if turns[0].done then [turns[0]] else []) + Done(turns[1..])
  }

  function Wires(turns: seq<Turn>): (wires: seq<Wire>)
    ensures |wires| == |turns| && forall k | 0 <= k < |turns| :: wires[k] == Wire(turns[k].request, turns[k].reply)
  {
    seq(|turns|, k requires 0 <= k < |turns| => Wire(turns[k].request, turns[k].reply))
  }

  function Counted(turns: seq<Turn>): nat {
    if turns == [] then 0 else |turns[0].request| + |turns[0].reply| + 100 + Counted(turns[1..])
  }

  function Latest(done: seq<Turn>, m: nat): (out: seq<Turn>)
    requires m <= |done|
    ensures |out| == m
  {
    done[|done| - m..]
  }

  /** The last `m` of the done turns may be carried. */
  ghost predicate Fits(done: seq<Turn>, m: nat, sizes: Sizes, bound: int)
    requires m <= |done|
  {
    Counted(Latest(done, m)) <= MAX_HISTORY && sizes.prompt(Wires(Latest(done, m))) <= bound
  }

  /** The last `m` done turns, every step up to which fits, while one more does not. */
  ghost predicate StopsAt(done: seq<Turn>, m: nat, history: seq<Wire>, sizes: Sizes, bound: int) {
    && m <= |done| && history == Wires(Latest(done, m))
    && (forall j: nat | 0 < j <= m :: Fits(done, j, sizes, bound))
    && (m < |done| ==> !Fits(done, m + 1, sizes, bound))
  }

  /** The longest recent run of done turns, in order, every step of which fits. */
  ghost predicate LongestRun(turns: seq<Turn>, history: seq<Wire>, sizes: Sizes, bound: int) {
    exists m: nat :: StopsAt(Done(turns), m, history, sizes, bound)
  }

  lemma {:induction false} DoneSplits(turns: seq<Turn>, i: nat)
    requires i <= |turns|
    ensures Done(turns) == Done(turns[..i]) + Done(turns[i..])
    decreases i
  {
    if i == 0 {
      assert turns[..0] == [] && turns[0..] == turns;
    } else {
      DoneSplits(turns[1..], i - 1);
      assert turns[..i][1..] == turns[1..][..i - 1] && turns[1..][i - 1..] == turns[i..];
    }
  }

  /** The turn before a suffix joins its done turns in front, or is passed over. */
  lemma OneTurnBack(turns: seq<Turn>, i: nat, m: nat)
    requires i < |turns| && m == |Done(turns[i + 1..])| && m <= |Done(turns)| && Done(turns[i + 1..]) == Latest(Done(turns), m)
    ensures if turns[i].done then
              && m < |Done(turns)| && Done(turns[i..]) == Latest(Done(turns), m + 1) == [turns[i]] + Latest(Done(turns), m)
            else Done(turns[i..]) == Latest(Done(turns), m)
  {
    assert turns[i..][1..] == turns[i + 1..];
    DoneSplits(turns, i);
  }

  /** What carrying one more turn comes to. */
  lemma OneMoreFits(done: seq<Turn>, m: nat, t: Turn, sizes: Sizes, bound: int)
    requires m < |done| && Latest(done, m + 1) == [t] + Latest(done, m)
    ensures Wires(Latest(done, m + 1)) == [Wire(t.request, t.reply)] + Wires(Latest(done, m))
    ensures Counted(Latest(done, m + 1)) == Counted(Latest(done, m)) + |t.request + t.reply| + 100
    ensures Fits(done, m + 1, sizes, bound) <==>
              Counted(Latest(done, m + 1)) <= MAX_HISTORY && sizes.prompt(Wires(Latest(done, m + 1))) <= bound
  {
    assert Latest(done, m + 1)[1..] == Latest(done, m);
  }

  lemma NothingCarried(turns: seq<Turn>)
    ensures Done(turns[|turns|..]) == [] == Latest(Done(turns), 0) && Counted([]) == 0 && Wires([]) == []
  {}

  /** The history loop of freezeInput, from the latest turn back. */
  method RecentHistory(turns: seq<Turn>, sizes: Sizes, bound: int) returns (history: seq<Wire>)
    requires sizes.prompt([]) <= bound
    ensures LongestRun(turns, history, sizes, bound) && sizes.prompt(history) <= bound
  {
    hide Fits, Counted, Done, Latest, Wires;
    ghost var done := Done(turns);
    ghost var m: nat := 0;
    var historyChars, i := 0, |turns| - 1;
    history := [];
    NothingCarried(turns);
    while i >= 0
      invariant -1 <= i < |turns| && m == |Done(turns[i + 1..])| <= |done|
      invariant Done(turns[i + 1..]) == Latest(done, m) && history == Wires(Latest(done, m))
      invariant historyChars == Counted(Latest(done, m)) <= MAX_HISTORY && sizes.prompt(history) <= bound
      invariant forall j: nat | 0 < j <= m :: Fits(done, j, sizes, bound)
    {
      var t := turns[i];
      OneTurnBack(turns, i, m);
      if t.done {
        OneMoreFits(done, m, t, sizes, bound);
        var n := |t.request + t.reply| + 100;
        if historyChars + n > MAX_HISTORY {
          assert StopsAt(done, m, history, sizes, bound);
          return;
        }
        var prior := history;
        history := [Wire(t.request, t.reply)] + prior;
        if sizes.prompt(history) > bound {
          history := prior;
          assert StopsAt(done, m, history, sizes, bound);
          return;
        }
        historyChars := historyChars + n;
        m := m + 1;
      }
      i := i - 1;
    }
    assert turns[0..] == turns;
    assert StopsAt(done, m, history, sizes, bound);
  }

  // ---- freezing ----------------------------------------------------------------------------

  /** The bound the prompt is held to. */
  function Bound(context: int, completion: int): int {
    if context > 0 then Min(MAX_MODEL_PROMPT, context - completion) else MAX_MODEL_PROMPT
  }

  /** run.go: freezeInput. A frozen prompt and its completion fit the context together, and no older
      done turn could have been added. */
  method FreezeInput(turns: seq<Turn>, policy: Policy, r: Request, sizes: Sizes, context: int) returns (frozen: Option<Frozen>)
    ensures frozen.Some? ==>
              && var f := frozen.value;
                 && f.completion == Fitting(policy, r, sizes, context) >= 1024 && f.prompt == sizes.prompt(f.history) && f.prompt <= MAX_MODEL_PROMPT
                 && (context > 0 ==> f.prompt + f.completion <= context)
                 && LongestRun(turns, f.history, sizes, Bound(context, f.completion))
    ensures var bound := Bound(context, Fitting(policy, r, sizes, context));
            frozen.None? <==> || r.documentChars > MAX_DOCUMENT || Unbudgeted(policy, r, sizes, context)
                              || bound <= 0 || sizes.prompt([]) > bound
  {
    hide LongestRun, Planned, ContextRoom;
    if r.documentChars > MAX_DOCUMENT { return None; }
    var completion := CompletionCap(policy, r, sizes, context);
    if completion <= 0 { return None; }
    var bound := MAX_MODEL_PROMPT;
    if context > 0 {
      var room := context - completion;
      if room < bound { bound := room; }
    }
    if bound <= 0 { return None; }
    var core := sizes.prompt([]);
    if core > bound { return None; }
    var history := RecentHistory(turns, sizes, bound);
    return Some(Frozen(history, completion, sizes.prompt(history)));
  }

  /** The room the cap sets aside is enough: while the owner's words add no more than twice their limit
      and 256 runes, a budgeted request is never refused for its context, only for the model's own
      bound. */
  lemma CapLeavesRoomForTheOwner(sizes: Sizes, context: int, completion: int)
    requires context > 0 && 1024 <= completion <= ContextRoom(sizes, context)
    requires sizes.prompt([]) <= sizes.base + MAX_OWNER_PROMPT * 2 + 256
    ensures Bound(context, completion) > 0
    ensures sizes.prompt([]) <= Bound(context, completion) <==> sizes.prompt([]) <= MAX_MODEL_PROMPT
  {}
}
