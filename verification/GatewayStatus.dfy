/**
  What requests are answered with.  Every answer is accounted for by the action that decided its
  status: an execution, a dispatch timeout, or the relay's refusal of another target.
*/
module GatewayStatus {
  import opened Totals
  import opened Gateway
  import GatewayFlow

  // ----- counting actions of a run

  function Bit(b: bool): nat {
    if b then 1 else 0
  }

  /** The action executes the request with this status. */
  predicate Executes(s: State, l: Label, r: Request, st: Status) {
    match l
    case OnDispatch(Execute(i, status)) => i < |s.disp| && s.disp[i].Running? && s.disp[i].req == r && status == st
    case _ => false
  }

  /** The action gives up waiting for a token for the request. */
  predicate GivesUp(s: State, l: Label, r: Request) {
    match l
    case OnDispatch(TimeOut(i)) => i < |s.disp| && s.disp[i].Waiting? && s.disp[i].req == r
    case _ => false
  }

  /** The relay refuses the request. */
  predicate Refuses(s: State, l: Label, r: Request) {
    l == OnRelay(Reject) && s.relay == Rejecting(r)
  }

  /** The relay takes the request from its input. */
  predicate Takes(s: State, l: Label, r: Request) {
    l.OnRelay? && l.relay.TakeRequest? && s.extIn != [] && s.extIn[0] == r
  }

  /** The action decides that the request is answered with the status. */
  predicate Decides(s: State, l: Label, r: Request, st: Status) {
    || Executes(s, l, r, st) || (GivesUp(s, l, r) && st == FAIL_DISPATCH) || (Refuses(s, l, r) && st == INVALID_TARGET)
  }

  function Decisions(s: State, run: seq<Label>, r: Request, st: Status): nat
    requires Legal(s, run)
    decreases |run|
  {
    if run == [] then 0 else Bit(Decides(s, run[0], r, st)) + Decisions(Do(s, run[0]), run[1..], r, st)
  }

  function Takings(s: State, run: seq<Label>, r: Request): nat
    requires Legal(s, run)
    decreases |run|
  {
    if run == [] then 0 else Bit(Takes(s, run[0], r)) + Takings(Do(s, run[0]), run[1..], r)
  }

  // ----- the answers of a state

  /** The goroutine has decided on this status for the request. */
  predicate Carries(d: Dispatch, r: Request, st: Status) {
    match d
    case Returning(req, _, status) => req == r && status == st
    case Answering(res) => res == Response(r, st)
    case _ => false
  }

  function CarryWeight(r: Request, st: Status): Dispatch -> nat {
    (d: Dispatch) => Bit(Carries(d, r, st))
  }

  function AnswerWeight(r: Request, st: Status): Response -> nat {
    (res: Response) => Bit(res == Response(r, st))
  }

  /** The answers to the request with the status, wherever they are. */
  function Answers(s: State, r: Request, st: Status): nat {
    Total(CarryWeight(r, st), s.disp) + Total(AnswerWeight(r, st), s.intOut)
    + Bit(s.relay == Replying(Response(r, st))) + Total(AnswerWeight(r, st), s.extOut)
  }

  // ----- one action more

  lemma {:induction false} CarryAfter(disp: seq<Dispatch>, i: nat, d: Dispatch, r: Request, st: Status)
    requires i < |disp|
    ensures Total(CarryWeight(r, st), disp[i := d]) + Bit(Carries(disp[i], r, st)) ==
      Total(CarryWeight(r, st), disp) + Bit(Carries(d, r, st))
  {
    Changed(CarryWeight(r, st), disp, i, d);
  }

  lemma {:induction false} AnswerQueued(q: seq<Response>, res: Response, r: Request, st: Status)
    ensures Total(AnswerWeight(r, st), q + [res]) == Total(AnswerWeight(r, st), q) + Bit(res == Response(r, st))
  {
    OneMore(AnswerWeight(r, st), q, res);
  }

  lemma {:induction false} AnswerTaken(q: seq<Response>, r: Request, st: Status)
    requires q != []
    ensures Total(AnswerWeight(r, st), q) == Bit(q[0] == Response(r, st)) + Total(AnswerWeight(r, st), q[1..])
  {
    FirstGone(AnswerWeight(r, st), q);
  }

  lemma StatusRelay(s: State, l: RelayAct, r: Request, st: Status)
    requires RelayEnabled(s, l)
    ensures Answers(DoRelay(s, l), r, st) == Answers(s, r, st) + Bit(Decides(s, OnRelay(l), r, st))
  {
    match l
    case Reject => AnswerQueued(s.extOut, Response(s.relay.req, INVALID_TARGET), r, st);
    case TakeResponse(_) => AnswerTaken(s.intOut, r, st);
    case Reply => AnswerQueued(s.extOut, s.relay.res, r, st);
    case _ =>
  }

  lemma StatusAnswer(s: State, i: nat, r: Request, st: Status)
    requires DispatchEnabled(s, Answer(i))
    ensures Answers(DoDispatch(s, Answer(i)), r, st) == Answers(s, r, st)
  {
    CarryAfter(s.disp, i, Exited, r, st);
    AnswerQueued(s.intOut, s.disp[i].res, r, st);
  }

  /** The goroutine goes on: it decides when it executes or gives up, and never changes its mind. */
  lemma StatusGoesOn(s: State, l: DispatchAct, r: Request, st: Status)
    requires DispatchEnabled(s, l) && !l.Start? && !l.Answer?
    ensures Answers(DoDispatch(s, l), r, st) == Answers(s, r, st) + Bit(Decides(s, OnDispatch(l), r, st))
  {
    var s' := DoDispatch(s, l);
    assert s'.disp == s.disp[l.i := s'.disp[l.i]];
    CarryAfter(s.disp, l.i, s'.disp[l.i], r, st);
    assert s'.relay == s.relay && s'.intOut == s.intOut && s'.extOut == s.extOut;
  }

  lemma StatusDispatch(s: State, l: DispatchAct, r: Request, st: Status)
    requires DispatchEnabled(s, l)
    ensures Answers(DoDispatch(s, l), r, st) == Answers(s, r, st) + Bit(Decides(s, OnDispatch(l), r, st))
  {
    match l
    case Start => OneMore(CarryWeight(r, st), s.disp, Waiting(s.intIn[0]));
    case Answer(i) => StatusAnswer(s, i, r, st);
    case _ => StatusGoesOn(s, l, r, st);
  }

  lemma StatusStep(s: State, l: Label, r: Request, st: Status)
    requires Enabled(s, l)
    ensures Answers(Do(s, l), r, st) == Answers(s, r, st) + Bit(Decides(s, l, r, st))
  {
    match l
    case OnRelay(a) => StatusRelay(s, a, r, st);
    case OnDispatch(a) => StatusDispatch(s, a, r, st);
    case OnReconcile(_) =>
  }

  lemma {:induction false} StatusRun(s: State, run: seq<Label>, r: Request, st: Status)
    requires Legal(s, run)
    ensures Answers(Exec(s, run), r, st) == Answers(s, r, st) + Decisions(s, run, r, st)
    decreases |run|
  {
    if run != [] {
      StatusStep(s, run[0], r, st);
      StatusRun(Do(s, run[0]), run[1..], r, st);
    }
  }

  /** Status conservation: in every run, the answers to a request with a status, from the goroutine
      that has decided on it to the external output, are exactly as many as the executions of the
      request with that status, plus the dispatch timeouts for FAIL_DISPATCH and the relay's
      refusals for INVALID_TARGET. */
  lemma {:induction false} StatusConservation(target: string, run: seq<Label>, r: Request, st: Status)
    requires Legal(Init(target), run)
    ensures Answers(Exec(Init(target), run), r, st) == Decisions(Init(target), run, r, st)
  {
    StatusRun(Init(target), run, r, st);
  }

  // ----- requests for other targets

  /** A request for another target is nowhere behind the relay, and all its answers are refusals. */
  ghost predicate Foreign(s: State, r: Request) {
    && r.target != s.target && (s.relay.Rejecting? ==> s.relay.req.target != s.target)
    && GatewayFlow.Pending(s, r) == 0 && !(s.relay.Replying? && s.relay.res.source == r)
    && Total(GatewayFlow.SourceWeight(r), s.extOut) == Total(AnswerWeight(r, INVALID_TARGET), s.extOut)
  }

  /** Refused and still to be refused. */
  function Refused(s: State, r: Request): nat {
    Bit(s.relay == Rejecting(r)) + Total(AnswerWeight(r, INVALID_TARGET), s.extOut)
  }

  lemma ForeignRelay(s: State, l: RelayAct, r: Request)
    requires RelayEnabled(s, l) && Foreign(s, r)
    ensures Foreign(DoRelay(s, l), r) && Refused(DoRelay(s, l), r) == Refused(s, r) + Bit(Takes(s, OnRelay(l), r))
  {
    match l
    case Reject =>
      AnswerQueued(s.extOut, Response(s.relay.req, INVALID_TARGET), r, INVALID_TARGET);
      GatewayFlow.ResponseQueued(s.extOut, Response(s.relay.req, INVALID_TARGET), r);
    case TakeResponse(_) => GatewayFlow.ResponseTaken(s.intOut, r);
    case Reply =>
      AnswerQueued(s.extOut, s.relay.res, r, INVALID_TARGET);
      GatewayFlow.ResponseQueued(s.extOut, s.relay.res, r);
    case _ =>
  }

  lemma ForeignStart(s: State, r: Request)
    requires DispatchEnabled(s, Start) && Foreign(s, r)
    ensures Foreign(DoDispatch(s, Start), r)
  {
    OneMore(GatewayFlow.OweWeight(r), s.disp, Waiting(s.intIn[0]));
    assert s.intIn == [s.intIn[0]] + s.intIn[1..];
  }

  lemma ForeignAnswer(s: State, i: nat, r: Request)
    requires DispatchEnabled(s, Answer(i)) && Foreign(s, r)
    ensures Foreign(DoDispatch(s, Answer(i)), r)
  {
    GatewayFlow.OwesAfter(s.disp, i, Exited, r);
    GatewayFlow.ResponseQueued(s.intOut, s.disp[i].res, r);
  }

  lemma ForeignGoesOn(s: State, l: DispatchAct, r: Request)
    requires DispatchEnabled(s, l) && !l.Start? && !l.Answer? && Foreign(s, r)
    ensures Foreign(DoDispatch(s, l), r)
  {
    var s' := DoDispatch(s, l);
    assert s'.disp == s.disp[l.i := s'.disp[l.i]] && GatewayFlow.Owes(s'.disp[l.i], r) == GatewayFlow.Owes(s.disp[l.i], r);
    GatewayFlow.OwesAfter(s.disp, l.i, s'.disp[l.i], r);
    assert s'.relay == s.relay && s'.intIn == s.intIn && s'.intOut == s.intOut && s'.extOut == s.extOut;
  }

  lemma ForeignDispatch(s: State, l: DispatchAct, r: Request)
    requires DispatchEnabled(s, l) && Foreign(s, r)
    ensures Foreign(DoDispatch(s, l), r) && Refused(DoDispatch(s, l), r) == Refused(s, r)
  {
    match l
    case Start => ForeignStart(s, r);
    case Answer(i) => ForeignAnswer(s, i, r);
    case _ => ForeignGoesOn(s, l, r);
  }

  lemma ForeignReconcile(s: State, l: ReconcileAct, r: Request)
    requires ReconcileEnabled(s, l) && Foreign(s, r)
    ensures Foreign(DoReconcile(s, l), r) && Refused(DoReconcile(s, l), r) == Refused(s, r)
  {
  }

  lemma {:induction false} ForeignRun(s: State, run: seq<Label>, r: Request)
    requires Legal(s, run) && Foreign(s, r)
    ensures Foreign(Exec(s, run), r) && Refused(Exec(s, run), r) == Refused(s, r) + Takings(s, run, r)
    decreases |run|
  {
    if run != [] {
      match run[0] {
        case OnRelay(a) => ForeignRelay(s, a, r);
        case OnDispatch(a) => ForeignDispatch(s, a, r);
        case OnReconcile(a) => ForeignReconcile(s, a, r);
      }
      ForeignRun(Do(s, run[0]), run[1..], r);
    }
  }

  /** Refusal of other targets: in every run, a request for another target that the relay has taken
      is about to be refused or has been answered INVALID_TARGET, as often as it was taken, and it
      is never answered otherwise. */
  lemma {:induction false} ForeignRefused(target: string, run: seq<Label>, r: Request)
    requires Legal(Init(target), run) && r.target != target
    ensures var s := Exec(Init(target), run);
      && Takings(Init(target), run, r) ==
           Bit(s.relay == Rejecting(r)) + Total(AnswerWeight(r, INVALID_TARGET), s.extOut)
      && Total(GatewayFlow.SourceWeight(r), s.extOut) == Total(AnswerWeight(r, INVALID_TARGET), s.extOut)
  {
    ForeignRun(Init(target), run, r);
  }

  // ----- requests for this target

  /** Refusals of a request by the relay. */
  function Refusals(s: State, run: seq<Label>, r: Request): nat
    requires Legal(s, run)
    decreases |run|
  {
    if run == [] then 0 else Bit(Refuses(s, run[0], r)) + Refusals(Do(s, run[0]), run[1..], r)
  }

  lemma {:induction false} OwnRun(s: State, run: seq<Label>, r: Request)
    requires Legal(s, run) && r.target == s.target && (s.relay.Rejecting? ==> s.relay.req.target != s.target)
    ensures Refusals(s, run, r) == 0
    ensures Takings(s, run, r) + multiset(s.relayed)[r] == multiset(Exec(s, run).relayed)[r]
    decreases |run|
  {
    if run != [] {
      OwnRun(Do(s, run[0]), run[1..], r);
    }
  }

  /** A request for this target is relayed as often as the relay takes it, and never refused by
      the relay. */
  lemma {:induction false} OwnRelayed(target: string, run: seq<Label>, r: Request)
    requires Legal(Init(target), run) && r.target == target
    ensures multiset(Exec(Init(target), run).relayed)[r] == Takings(Init(target), run, r)
    ensures Refusals(Init(target), run, r) == 0
  {
    OwnRun(Init(target), run, r);
  }
}
