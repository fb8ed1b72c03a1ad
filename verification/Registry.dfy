/** The model registry: concurrent requests that resolve a model version to a loaded model. */
module Registry {
  import opened JobTypes

  /** A loaded model object and its metadata object, by identity. */
  datatype Built = Built(model: Id, meta: Id)

  datatype Tables = Tables(models: map<Id, Id>, meta: map<Id, Id>)

  function Registered(r: Tables, id: Id, b: Built): Tables {
    Tables(r.models[id := b.model], r.meta[id := b.meta])
  }

  function Lookup(m: map<Id, Id>, id: Id): Option<Id> {
    if id in m then Some(m[id]) else None
  }

  class ModelRegistry {
    var models: map<Id, Id>
    var meta: map<Id, Id>

    constructor ()
      ensures View() == Tables(map[], map[])
    {
      models, meta := map[], map[];
    }

    function View(): Tables
      reads this
    {
      Tables(models, meta)
    }

    method Register(id: Id, b: Built)
      modifies this
      ensures View() == Registered(old(View()), id, b)
    {
      models := models[id := b.model];
      meta := meta[id := b.meta];
    }

    /** `loads`: a registered model is loaded or loads now; an exception there reads like no model. */
    method Get(id: Id, loads: bool) returns (model: Option<Id>)
      ensures model == if loads then Lookup(models, id) else None
    {
      model := if id in models && loads then Some(models[id]) else None;
    }

    method Metadata(id: Id) returns (m: Option<Id>)
      ensures m == Lookup(meta, id)
    {
      m := if id in meta then Some(meta[id]) else None;
    }

    /** The last block of resolve: registers what was built unless another request was faster. */
    method Bind(id: Id, b: Built) returns (model: Id, m: Option<Id>)
      modifies this
      ensures id in old(models) ==> View() == old(View()) && model == models[id] && m == Lookup(meta, id)
      ensures id !in old(models) ==> View() == Registered(old(View()), id, b) && model == b.model && m == Some(b.meta)
    {
      if id in models {
        model := models[id];
        m := Lookup(meta, id);
      } else {
        models := models[id := b.model];
        meta := meta[id := b.meta];
        model, m := b.model, Some(b.meta);
      }
    }

    /** `built` is what the artifact's URI leads to, if a task can be inferred from it; `raises`: loading it
        raises an exception, which the caller gets. */
    method Resolve(id: Id, built: Option<Built>, loads: bool, raises: bool)
      returns (r: Result<Option<(Id, Option<Id>)>, ()>)
      modifies this
      ensures r.Err? <==> (id !in old(models) || !loads) && built.Some? && raises
      ensures View() == if id in old(models) || built.None? || raises then old(View())
              else Registered(old(View()), id, built.value)
      ensures r.Ok? && r.value.Some? ==> id in models && r.value.value == (models[id], Lookup(meta, id))
      ensures r.Ok? && r.value.None? <==> (id !in old(models) || !loads) && built.None?
    {
      var model := Get(id, loads);
      if model.Some? {
        var m := Metadata(id);
        return Ok(Some((model.value, m)));
      }
      if built.None? {
        return Ok(None);
      }
      if raises {
        return Err(());
      }
      var bound, m := Bind(id, built.value);
      return Ok(Some((bound, m)));
    }
  }

  // ---------------------------------------------------------------- requests side by side

  /** Where a request is; each lock acquisition is one step. `Answered` carries what it returns. `loads`
      says whether a model that is registered already loads. */
  datatype Pc =
    | Looking(id: Id, built: Option<Built>, loads: bool)
    | Describing(id: Id, model: Id)
    | Building(id: Id, made: Built)
    | Answered(id: Id, answer: Option<(Id, Option<Id>)>)

  datatype State = State(tables: Tables, requests: map<nat, Pc>)

  /** `Raise`: the model a request has built does not load, and its caller gets the exception. */
  datatype Event =
    | Arrive(t: nat, id: Id, built: Option<Built>, loads: bool)
    | Proceed(t: nat)
    | Raise(t: nat)
    | LateRegister(id: Id, b: Built)

  function Advance(r: Tables, pc: Pc): (Tables, Pc) {
    match pc
    case Looking(id, built, loads) =>
      if id in r.models && loads then (r, Describing(id, r.models[id]))
      else if built.Some? then (r, Building(id, built.value))
      else (r, Answered(id, None))
    case Describing(id, model) => (r, Answered(id, Some((model, Lookup(r.meta, id)))))
    case Building(id, made) =>
      if id in r.models then (r, Answered(id, Some((r.models[id], Lookup(r.meta, id)))))
      else (Registered(r, id, made), Answered(id, Some((made.model, Some(made.meta)))))
    case Answered(_, _) => (r, pc)
  }

  /** A request that nobody else interferes with comes to what `Resolve` does, unless its own model raises: it is
      answered with what is registered then, and a request that has built a model always with some model. */
  lemma RequestAlone(r: Tables, id: Id, built: Option<Built>, loads: bool)
    ensures var (r1, pc1) := Advance(r, Looking(id, built, loads));
            var (r2, pc2) := Advance(r1, pc1);
            && r2 == (if id in r.models || built.None? then r else Registered(r, id, built.value))
            && pc2.Answered? && pc2.id == id
            && (pc2.answer.None? <==> (id !in r.models || !loads) && built.None?)
            && (pc2.answer.Some? ==>
                  id in r2.models && pc2.answer.value == (r2.models[id], Lookup(r2.meta, id)))
            && Advance(r2, pc2) == (r2, pc2)
  {}

  /** What is registered for one id: its model and its metadata, and nothing else changes. */
  lemma RegisteredTogether(r: Tables, id: Id, b: Built)
    ensures var r' := Registered(r, id, b);
            && Lookup(r'.models, id) == Some(b.model) && Lookup(r'.meta, id) == Some(b.meta)
            && forall other | other != id ::
                 Lookup(r'.models, other) == Lookup(r.models, other) && Lookup(r'.meta, other) == Lookup(r.meta, other)
  {}

  ghost predicate Step(late: bool, s: State, e: Event, s': State) {
    match e
    case Arrive(t, id, built, loads) =>
      t !in s.requests && s' == s.(requests := s.requests[t := Looking(id, built, loads)])
    case Proceed(t) =>
      t in s.requests
      && var (tables, pc) := Advance(s.tables, s.requests[t]);
      s' == State(tables, s.requests[t := pc])
    case Raise(t) =>
      t in s.requests && s.requests[t].Building? && s' == s.(requests := s.requests - {t})
    case LateRegister(id, b) => late && s' == s.(tables := Registered(s.tables, id, b))
  }

  /** A run after start-up has filled the tables. */
  ghost predicate IsRun(late: bool, states: seq<State>, events: seq<Event>) {
    && |states| == |events| + 1
    && states[0].requests == map[] && states[0].tables.models.Keys == states[0].tables.meta.Keys
    && forall i | 0 <= i < |events| :: Step(late, states[i], events[i], states[i + 1])
  }

  /** Requests agree with the tables on what they have read or returned. */
  ghost predicate Inv(s: State) {
    && s.tables.models.Keys == s.tables.meta.Keys
    && forall t | t in s.requests ::
         match s.requests[t]
         case Describing(id, model) => id in s.tables.models && s.tables.models[id] == model
         case Answered(id, Some(a)) => id in s.tables.models && a == (s.tables.models[id], Some(s.tables.meta[id]))
         case _ => true
  }

  lemma {:induction false} RunKeepsInv(states: seq<State>, events: seq<Event>, n: nat)
    requires IsRun(false, states, events) && n < |states|
    ensures Inv(states[n])
  {
    if n > 0 {
      RunKeepsInv(states, events, n - 1);
      assert Step(false, states[n - 1], events[n - 1], states[n]);
    }
  }

  /** All answers for one id carry the same model and the same metadata. */
  ghost predicate Agree(s: State) {
    forall t, u | t in s.requests && u in s.requests ::
      var a, b := s.requests[t], s.requests[u];
      a.Answered? && b.Answered? && a.id == b.id && a.answer.Some? && b.answer.Some? ==> a.answer == b.answer
  }

  /** However many requests resolve one id at once, the first binding wins: all get the same model with
      the same metadata, provided models are registered from outside only at start-up. */
  lemma FirstBindingWins(states: seq<State>, events: seq<Event>)
    requires IsRun(false, states, events)
    ensures Agree(states[|states| - 1])
  {
    RunKeepsInv(states, events, |states| - 1);
  }

  /** A model registered from outside between the two look-ups of one request gives it the metadata of
      another model than the one it returns, which the next request gets. */
  lemma LateRegisterBreaksAgreement() returns (states: seq<State>, events: seq<Event>)
    ensures IsRun(true, states, events) && !Agree(states[|states| - 1])
  {
    var id, first, second := 1, Built(10, 11), Built(20, 21);
    var r0 := Tables(map[id := first.model], map[id := first.meta]);
    var r1 := Registered(r0, id, second);
    var torn, whole := Answered(id, Some((10, Some(21)))), Answered(id, Some((20, Some(21))));
    events := [Arrive(0, id, None, true), Proceed(0), LateRegister(id, second), Proceed(0),
               Arrive(1, id, None, true), Proceed(1), Proceed(1)];
    states := [State(r0, map[]), State(r0, map[0 := Looking(id, None, true)]), State(r0, map[0 := Describing(id, 10)]),
               State(r1, map[0 := Describing(id, 10)]), State(r1, map[0 := torn]),
               State(r1, map[0 := torn, 1 := Looking(id, None, true)]),
               State(r1, map[0 := torn, 1 := Describing(id, 20)]), State(r1, map[0 := torn, 1 := whole])];
    var last := states[7];
    assert last.requests[0] == torn && last.requests[1] == whole;
  }

  /** Agreement in all runs therefore means exactly that nothing is registered late. */
  lemma AgreementExactlyWhen(late: bool)
    ensures (forall states, events | IsRun(late, states, events) :: Agree(states[|states| - 1])) <==> !late
  {
    if late {
      var states, events := LateRegisterBreaksAgreement();
    } else {
      forall states, events | IsRun(false, states, events) ensures Agree(states[|states| - 1]) {
        FirstBindingWins(states, events);
      }
    }
  }
}
