/** What the workflows built on the in-memory runtime rely on: calls only add. */
module Workflows {
  import opened Prelude
  import opened Encoding
  import opened Domain
  import opened Requests
  import T = MachineTheorems
  import M = Memory
  import MR = MemoryRefinement

  /** The same card, except for the bucket it is in. */
  predicate SameCard(before: Card, after: Card) {
    after == before.(currentBucket := after.currentBucket)
  }

  /** Cards keep what they are, histories grow by appending, stored answers stay. */
  ghost predicate Grows(s: M.Mem, t: M.Mem) {
    && s.events.Keys == s.cards.Keys && t.events.Keys == t.cards.Keys
    && forall c :: c in s.cards ==> c in t.cards && SameCard(s.cards[c], t.cards[c]) && s.events[c] <= t.events[c]
  }

  lemma GrowsOn(s: M.Mem, t: M.Mem, u: M.Mem)
    requires Grows(s, t) && Grows(t, u)
    ensures Grows(s, u)
  {
    forall c | c in s.cards
      ensures c in u.cards && SameCard(s.cards[c], u.cards[c]) && s.events[c] <= u.events[c]
    {
      assert s.events[c] <= t.events[c] && t.events[c] <= u.events[c];
    }
  }

  /** Every call of the runtime, with new ids where it draws them, only adds. */
  lemma CallGrows(s: M.Mem, c: Call)
    requires M.Valid(s) && MR.FreshIds(s, c)
    ensures M.Valid(M.Step(s, c).after) && Grows(s, M.Step(s, c).after)
  {
    M.StepKeepsValid(s, c);
    MR.StepRefines(s, c);
    var a, ts, t := MR.CoreOf(s), MR.StepActs(s, c), M.Step(s, c).after;
    assert T.Sound(a);
    forall x | x in s.cards
      ensures x in t.cards && SameCard(s.cards[x], t.cards[x]) && s.events[x] <= t.events[x]
    {
      T.CardsKeepIdentity(a, ts, x);
      T.HistoriesGrow(a, ts, x);
    }
  }

  lemma RecordGrows(s: M.Mem, cardId: Uuid, eventType: string, actorId: Option<string>, payload: Json, now: Time, base: Uuid)
    requires M.Valid(s)
    ensures Grows(s, M.Record(s, cardId, eventType, actorId, payload, now, base).after)
    ensures M.Record(s, cardId, eventType, actorId, payload, now, base).after.cards == s.cards
  {
  }

  lemma RegisterGrows(s: M.Mem, panel: PatchPanel)
    requires M.Valid(s)
    ensures Grows(s, M.Register(s, panel).after)
    ensures M.Register(s, panel).after.cards == s.cards && M.Register(s, panel).after.events == s.events
  {
  }

  lemma AnsweredGrows(s: M.Mem, req: Request, done: M.Outcome)
    requires M.Valid(s) && Grows(s, done.after)
    ensures Grows(s, M.Answered(s, req, done).after)
    ensures done.after.cards == s.cards ==> M.Answered(s, req, done).after.cards == s.cards
  {
  }

  /** A registration or a recorded event draws no id for a card or a lease. */
  lemma NoteGrows(s: M.Mem, c: Call)
    requires M.Valid(s) && (c.req.RegisterPanel? || c.req.RecordEvent?)
    ensures M.Valid(M.Step(s, c).after) && Grows(s, M.Step(s, c).after)
    ensures M.Step(s, c).after.cards == s.cards
  {
    M.StepKeepsValid(s, c);
    match c.req
    case RegisterPanel(panel) =>
      RegisterGrows(s, panel);
      AnsweredGrows(s, c.req, M.Register(s, panel));
    case RecordEvent(cardId, eventType, actorId, payload, _) =>
      RecordGrows(s, cardId, eventType, actorId, payload, c.now, c.base);
      AnsweredGrows(s, c.req, M.Record(s, cardId, eventType, actorId, payload, c.now, c.base));
  }

  // ---- values as Python reads them ---------------------------------------------------------

  /** `bool(value)` */
  predicate TruthyValue(v: Value) {
    match v
    case Null => false
    case Bool(b) => b
    case Num(n) => n != 0
    case Str(t) => t != ""
    case List(items) => items != []
    case Obj(fields) => fields != map[]
    case _ => true
  }

  /** The first node of that id stands at `k`. */
  predicate FirstWith(nodes: seq<Node>, id: string, k: int) {
    0 <= k < |nodes| && nodes[k].id == id && forall j :: 0 <= j < k ==> nodes[j].id != id
  }

  /** `_node`: the first node of that id, refused when it is of another type, NotFound when there is none. */
  function NodeOf(nodes: seq<Node>, id: string, kind: NodeType): (r: Result<Node, Error>)
    ensures r.Ok? ==> r.value in nodes && r.value.id == id && r.value.kind == kind
    ensures r == Err(NotFound) <==> forall n :: n in nodes ==> n.id != id
    ensures r.Ok? <==> exists k :: FirstWith(nodes, id, k) && nodes[k].kind == kind && r == Ok(nodes[k])
    ensures r == Err(InvalidOperation) <==> exists k :: FirstWith(nodes, id, k) && nodes[k].kind != kind
  {
    if nodes == [] then Err(NotFound)
    else if nodes[0].id == id then
      assert FirstWith(nodes, id, 0);
      if nodes[0].kind == kind then Ok(nodes[0]) else Err(InvalidOperation)
    else
      assert forall k :: FirstWith(nodes[1..], id, k) <==> FirstWith(nodes, id, k + 1);
      NodeOf(nodes[1..], id, kind)
  }
}
