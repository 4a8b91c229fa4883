/** Where the versions a plan is checked against come from: a message keeps one
    stored plan with the versions its planner saw, handlers keep a plan in
    memory, and a handler may go on after its job has expired (Engine.process,
    finish and the reset after a stale plan). */
module Planning {
  import opened Types
  import opened Commands
  import Policies
  import opened Booking
  import opened PlanGate

  /** A plan with the requests its planner was shown, which is history beyond
      their versions. Only the model's plans are stored; the rules' plans are
      made and finished without being stored. */
  datatype Draft = Draft(cmds: seq<Planned>, shown: map<nat, Request>, byModel: bool)

  /** A handler of the message: it has read the context and will plan, it has
      planned, it holds the plan it will propose to finish, it has found
      the stored plan stale and will clear it, or it is over. */
  datatype Handler =
    | Looking(shown: map<nat, Request>)
    | Drafted(draft: Draft)
    | Holding(draft: Draft)
    | Stale
    | Over

  /** One message's turn, with the booking store it acts on. */
  datatype Turn = Turn(store: State, stored: Option<Draft>, processed: bool, handlers: seq<Handler>)

  /** versions(ctx): what is stored with a plan. */
  function Versions(shown: map<nat, Request>): map<nat, nat> {
    map id | id in shown :: shown[id].version
  }

  function SetHandler(t: Turn, h: nat, x: Handler): Turn
    requires h < |t.handlers|
  {
    t.(handlers := t.handlers[h := x])
  }

  /** The requests of a context, as they are now. */
  function Shown(s: State, ids: set<nat>): map<nat, Request> {
    map id | id in ids && id in s.requests && Visible(s.requests[id]) :: s.requests[id]
  }

  /** The plan finish runs: the stored one, else the one the handler proposes. */
  function Used(t: Turn, d: Draft): Draft {
    if t.stored.Some? then t.stored.value else d
  }

  /** The versions finish checks: the stored ones, else none. */
  function Expected(t: Turn): map<nat, nat> {
    if t.stored.Some? then Versions(t.stored.value.shown) else map[]
  }

  /** What finish reads besides the plan. */
  datatype Scene = Scene(
    phone: Phone, context: set<nat>, outsideTarget: Option<nat>, now: Policies.Now, time: int, allowed: bool)

  function PlanToRun(t: Turn, d: Draft, sc: Scene): Plan {
    Plan(sc.phone, Expected(t), Used(t, d).cmds, sc.context, sc.outsideTarget, sc.now, sc.time, sc.allowed)
  }

  /** finish acts: the message is not processed and every version it checks holds. */
  predicate Acts(t: Turn) {
    !t.processed && Fresh(t.store, Expected(t))
  }

  function Finish(t: Turn, h: nat, sc: Scene): Turn
    requires h < |t.handlers| && t.handlers[h].Holding?
  {
    if t.processed then SetHandler(t, h, Over)
    else if !Fresh(t.store, Expected(t)) then SetHandler(t, h, Stale)
    else SetHandler(t, h, Over).(store := RunPlan(t.store, PlanToRun(t, t.handlers[h].draft, sc)), processed := true)
  }

  datatype Event =
    | Reads(ids: set<nat>, byRules: bool)
    | Plans(handler: nat, cmds: seq<Commands.Planned>, byModel: bool)
    | Stores(handler: nat)
    | Finishes(handler: nat, scene: Scene)
    | Resets(handler: nat)
    | Dies(handler: nat)
    | Closes
    | Elsewhere(change: Booking.Event)

  predicate Enabled(t: Turn, e: Event) {
    match e
    case Reads(_, _) => !t.processed
    case Plans(h, _, _) => h < |t.handlers| && t.handlers[h].Looking?
    case Stores(h) => h < |t.handlers| && t.handlers[h].Drafted?
    case Finishes(h, _) => h < |t.handlers| && t.handlers[h].Holding?
    case Resets(h) => h < |t.handlers| && t.handlers[h].Stale?
    case Dies(h) => h < |t.handlers|
    case Closes => true
    case Elsewhere(_) => true
  }

  /** Stores writes only where nothing is stored. Resets clears what is stored,
      whoever stored it. Closes is the message processed in another way, and
      Elsewhere any transaction of another message, job or route. */
  function Step(t: Turn, e: Event): Turn
    requires Enabled(t, e)
  {
    match e
    case Reads(ids, byRules) =>
      var held := t.stored.Some? && !byRules;
      t.(handlers := t.handlers + [if held then Holding(t.stored.value) else Looking(Shown(t.store, ids))])
    case Plans(h, cmds, byModel) =>
      var d := Draft(cmds, t.handlers[h].shown, byModel);
      SetHandler(t, h, if byModel then Drafted(d) else Holding(d))
    case Stores(h) =>
      var d := t.handlers[h].draft;
      SetHandler(t, h, Holding(d)).(stored := if t.stored.None? && !t.processed then Some(d) else t.stored)
    case Finishes(h, sc) => Finish(t, h, sc)
    case Resets(h) => SetHandler(t, h, Over).(stored := if t.processed then t.stored else None)
    case Dies(h) => SetHandler(t, h, Over)
    case Closes => t.(processed := true)
    case Elsewhere(change) => t.(store := Booking.Step(t.store, change))
  }

  ghost predicate TurnRun(ts: seq<Turn>, es: seq<Event>) {
    && |ts| == |es| + 1
    && forall i :: 0 <= i < |es| ==> Enabled(ts[i], es[i]) && ts[i + 1] == Step(ts[i], es[i])
  }

  /** A message nobody has handled yet. */
  function NewTurn(s: State): Turn {
    Turn(s, None, false, [])
  }
}
