/** Shadow cards, links and proposed mutations (runtime/shadow.py), over runs with everything else. */
module Shadow {
  import opened Prelude
  import opened Encoding
  import opened Domain
  import opened PanelValidator
  import opened Requests
  import opened Workflows
  import opened Executor
  import opened MemoryRuntime
  import A = Machine
  import T = MachineTheorems
  import M = Memory
  import MR = MemoryRefinement
  import X = ExactlyOnce
  import B = Bootstrap
  import P = Publication

  datatype LinkStatus = Active | Completed

  datatype Link = Link(id: Uuid, production: Uuid, shadow: Uuid, candidate: string, status: LinkStatus, metrics: Json)

  datatype MutationStatus = Shadowing | Validated | Rejected | Promoted

  datatype Mutation = Mutation(id: Uuid, kind: string, proposedBy: string, payload: Json, status: MutationStatus,
    validatedAt: Option<Time>, promotedAt: Option<Time>)

  /** The shadow service's dictionaries. */
  datatype Book = Book(links: map<Uuid, Link>, mutations: map<Uuid, Mutation>)

  datatype Lab = Lab(mem: M.Mem, book: Book)

  datatype Shown<T> = Shown(after: Lab, result: Result<T, Error>)

  // ---- links -------------------------------------------------------------------------------

  function ActiveLinks(links: map<Uuid, Link>, production: Uuid): set<Uuid> {
    set l | l in links && links[l].production == production && links[l].status == Active
  }

  /** `workflow_version.split(":", maxsplit=1)[0]` */
  function PanelIdOf(version: string): string {
    match SplitFirst(version)
    case None => version
    case Some((head, _)) => head
  }

  function ShadowMetadata(production: Card, candidate: string): Json {
    production.metadata["shadow" := Bool(true)]["production_card_id" := Str(Text(production.id))]["candidate_id" := Str(candidate)]
  }

  function ShadowRequest(production: Card, candidate: string, key: Option<string>): Request {
    CreateCard(PanelIdOf(production.workflowVersion), production.payload, ShadowMetadata(production, candidate), key)
  }

  function CreatedNote(link: Link): Json {
    map["shadow_card_id" := Str(Text(link.shadow)), "shadow_link_id" := Str(Text(link.id)),
        "candidate_id" := Str(link.candidate)]
  }

  function LinkFor(id: Uuid, production: Card, shadow: Card, candidate: string): Link {
    Link(id, production.id, shadow.id, candidate, Active, map[])
  }

  function CreatedRequest(production: Card, link: Link): Request {
    RecordEvent(production.id, "shadow_created", Some(link.candidate), CreatedNote(link), None)
  }

  /** `create_shadow_card`: the last call raises for a production card the runtime does not know,
      and then the shadow card and its link stay. */
  ghost function CreateShadow(lab: Lab, production: Card, candidate: string, sampleRate: real, maxParallel: int,
    key: Option<string>, now: Time, base: Uuid): Shown<Card>
  {
    if sampleRate <= 0.0 then Shown(lab, Err(InvalidOperation))
    else if |ActiveLinks(lab.book.links, production.id)| >= maxParallel then Shown(lab, Err(Conflict))
    else
      var create := Call(ShadowRequest(production, candidate, key), now, base);
      var created := M.Step(lab.mem, create);
      StepFits(lab.mem, create);
      match created.result
      case Err(e) => Shown(lab.(mem := created.after), Err(e))
      case Ok(reply) =>
        var link := LinkFor(base + 2, production, reply.card, candidate);
        var noted := M.Step(created.after, Call(CreatedRequest(production, link), now, base + 3));
        Shown(Lab(noted.after, lab.book.(links := lab.book.links[link.id := link])),
              if noted.result.Ok? then Ok(reply.card) else Err(noted.result.error))
  }

  function CompletedRequest(link: Link, metrics: Json): Request {
    RecordEvent(link.production, "shadow_completed", Some(link.candidate),
                map["shadow_link_id" := Str(Text(link.id)), "metrics" := Obj(metrics)], None)
  }

  /** `complete_shadow` */
  ghost function CompleteShadow(lab: Lab, linkId: Uuid, metrics: Json, now: Time, base: Uuid): Shown<Link> {
    if linkId !in lab.book.links then Shown(lab, Err(NotFound))
    else
      var link := lab.book.links[linkId].(status := Completed, metrics := metrics);
      var noted := M.Step(lab.mem, Call(CompletedRequest(link, metrics), now, base));
      Shown(Lab(noted.after, lab.book.(links := lab.book.links[linkId := link])),
            if noted.result.Ok? then Ok(link) else Err(noted.result.error))
  }

  // ---- mutations ---------------------------------------------------------------------------

  function ProposeMutation(book: Book, kind: string, proposedBy: string, payload: Json, id: Uuid): Book {
    book.(mutations := book.mutations[id := Mutation(id, kind, proposedBy, payload, Shadowing, None, None)])
  }

  function Verdict(accepted: bool): MutationStatus { if accepted then Validated else Rejected }

  function ValidateMutation(book: Book, id: Uuid, accepted: bool, validatorId: string, reason: Option<string>, now: Time)
    : Result<Book, Error>
  {
    if id !in book.mutations then Err(NotFound)
    else
      var m := book.mutations[id];
      var note := Obj(map["validator_id" := Str(validatorId), "reason" := OptStr(reason)]);
      Ok(book.(mutations := book.mutations[id := m.(status := Verdict(accepted), validatedAt := Some(now),
                                                    payload := m.payload["validation" := note])]))
  }

  /** `promote_mutation`: only a validated mutation, and only with a panel the validator accepts. */
  ghost function PromoteMutation(lab: Lab, id: Uuid, panel: PatchPanel, now: Time): Shown<Mutation> {
    if id !in lab.book.mutations then Shown(lab, Err(NotFound))
    else if lab.book.mutations[id].status != Validated then Shown(lab, Err(Conflict))
    else
      var registered := M.Register(lab.mem, panel);
      if registered.result.Err? then Shown(lab, Err(registered.result.error))
      else
        var promoted := lab.book.mutations[id].(status := Promoted, promotedAt := Some(now));
        Shown(Lab(registered.after, lab.book.(mutations := lab.book.mutations[id := promoted])), Ok(promoted))
  }

  // ---- runs --------------------------------------------------------------------------------

  datatype World = World(studio: Studio, book: Book)

  datatype Deed =
    | Elsewhere(deed: P.Deed)
    | Shadowed(production: Card, candidate: string, sampleRate: real, maxParallel: int, key: Option<string>, now: Time, base: Uuid)
    | Completing(link: Uuid, metrics: Json, now: Time, base: Uuid)
    | Proposing(kind: string, proposedBy: string, payload: Json, id: Uuid)
    | Judging(mutation: Uuid, accepted: bool, validatorId: string, reason: Option<string>, now: Time)
    | Promoting(mutation: Uuid, panel: PatchPanel, now: Time)

  function Into(w: World, lab: Lab): World { World(w.studio.(mem := lab.mem), lab.book) }

  ghost function Do(w: World, deed: Deed): World {
    var lab := Lab(w.studio.mem, w.book);
    match deed
    case Elsewhere(d) => w.(studio := P.Do(w.studio, d))
    case Shadowed(production, candidate, sampleRate, maxParallel, key, now, base) =>
      Into(w, CreateShadow(lab, production, candidate, sampleRate, maxParallel, key, now, base).after)
    case Completing(link, metrics, now, base) => Into(w, CompleteShadow(lab, link, metrics, now, base).after)
    case Proposing(kind, proposedBy, payload, id) => w.(book := ProposeMutation(w.book, kind, proposedBy, payload, id))
    case Judging(mutation, accepted, validatorId, reason, now) =>
      var judged := ValidateMutation(w.book, mutation, accepted, validatorId, reason, now);
      if judged.Ok? then w.(book := judged.value) else w
    case Promoting(mutation, panel, now) => Into(w, PromoteMutation(lab, mutation, panel, now).after)
  }

  ghost function Run(w: World, deeds: seq<Deed>): World {
    if deeds == [] then w else Do(Run(w, deeds[..|deeds| - 1]), deeds[|deeds| - 1])
  }

  const FRESH := World(P.FRESH, Book(map[], map[]))

  // ---- at most so many active links --------------------------------------------------------

  ghost predicate LinksBounded(links: map<Uuid, Link>, most: nat) {
    forall p :: |ActiveLinks(links, p)| <= most
  }

  /** The ids drawn for links and mutations are new. */
  predicate DrawsNewIds(book: Book, deed: Deed) {
    && (deed.Shadowed? ==> deed.base + 2 !in book.links)
    && (deed.Proposing? ==> deed.id !in book.mutations)
  }

  lemma NewLinkCounts(links: map<Uuid, Link>, link: Link, p: Uuid)
    requires link.id !in links && link.status == Active
    ensures |ActiveLinks(links[link.id := link], p)| == |ActiveLinks(links, p)| + if link.production == p then 1 else 0
  {
    var after := ActiveLinks(links[link.id := link], p);
    if link.production == p {
      assert after == ActiveLinks(links, p) + {link.id};
    } else {
      assert after == ActiveLinks(links, p);
    }
  }

  lemma CompletedLinkCounts(links: map<Uuid, Link>, link: Link, p: Uuid)
    requires link.id in links && link.status == Completed
    ensures |ActiveLinks(links[link.id := link], p)| <= |ActiveLinks(links, p)|
  {
    var after, before := ActiveLinks(links[link.id := link], p), ActiveLinks(links, p);
    assert after <= before;
    FewerOrEqual(after, before);
  }

  lemma FewerOrEqual(a: set<Uuid>, b: set<Uuid>)
    requires a <= b
    ensures |a| <= |b|
  {
    assert b == a + (b - a);
  }

  /** A new active link, made while its production card had fewer than `most`. */
  predicate Linked(before: map<Uuid, Link>, after: map<Uuid, Link>, link: Link, most: int) {
    && link.id !in before && link.status == Active && after == before[link.id := link]
    && |ActiveLinks(before, link.production)| < most
  }

  predicate Finished(before: map<Uuid, Link>, after: map<Uuid, Link>, link: Link) {
    link.id in before && link.status == Completed && after == before[link.id := link]
  }

  ghost predicate Relinked(before: map<Uuid, Link>, after: map<Uuid, Link>, most: int) {
    || after == before
    || (exists link: Link :: Linked(before, after, link, most))
    || (exists link: Link :: Finished(before, after, link))
  }

  predicate LinksKeyed(links: map<Uuid, Link>) { forall l :: l in links ==> links[l].id == l }

  lemma ShadowingRelinks(lab: Lab, production: Card, candidate: string, sampleRate: real, maxParallel: int,
    key: Option<string>, now: Time, base: Uuid)
    requires base + 2 !in lab.book.links
    ensures Relinked(lab.book.links,
      CreateShadow(lab, production, candidate, sampleRate, maxParallel, key, now, base).after.book.links, maxParallel)
  {
    var links := CreateShadow(lab, production, candidate, sampleRate, maxParallel, key, now, base).after.book.links;
    if links != lab.book.links { assert Linked(lab.book.links, links, links[base + 2], maxParallel); }
  }

  lemma CompletingRelinks(lab: Lab, linkId: Uuid, metrics: Json, now: Time, base: Uuid)
    requires LinksKeyed(lab.book.links)
    ensures Relinked(lab.book.links, CompleteShadow(lab, linkId, metrics, now, base).after.book.links, 0)
  {
    var links := CompleteShadow(lab, linkId, metrics, now, base).after.book.links;
    if links != lab.book.links { assert Finished(lab.book.links, links, links[linkId]); }
  }

  /** A deed leaves the links alone, adds a new active one within the request's limit, or completes one. */
  lemma DeedRelinks(w: World, deed: Deed)
    requires DrawsNewIds(w.book, deed) && LinksKeyed(w.book.links)
    ensures Relinked(w.book.links, Do(w, deed).book.links, if deed.Shadowed? then deed.maxParallel else 0)
  {
    var lab := Lab(w.studio.mem, w.book);
    match deed
    case Shadowed(production, candidate, sampleRate, maxParallel, key, now, base) =>
      ShadowingRelinks(lab, production, candidate, sampleRate, maxParallel, key, now, base);
    case Completing(link, metrics, now, base) => CompletingRelinks(lab, link, metrics, now, base);
    case _ =>
  }

  lemma RelinkingKeepsBound(before: map<Uuid, Link>, after: map<Uuid, Link>, limit: int, most: nat)
    requires LinksBounded(before, most) && LinksKeyed(before) && Relinked(before, after, limit) && limit <= most
    ensures LinksBounded(after, most) && LinksKeyed(after)
  {
    if link: Link :| Linked(before, after, link, limit) {
      forall p ensures |ActiveLinks(after, p)| <= most { NewLinkCounts(before, link, p); }
    } else if link: Link :| Finished(before, after, link) {
      forall p ensures |ActiveLinks(after, p)| <= most { CompletedLinkCounts(before, link, p); }
    }
  }

  lemma DeedKeepsLinks(w: World, deed: Deed, most: nat)
    requires LinksBounded(w.book.links, most) && LinksKeyed(w.book.links) && DrawsNewIds(w.book, deed)
    requires deed.Shadowed? ==> deed.maxParallel <= most
    ensures LinksBounded(Do(w, deed).book.links, most) && LinksKeyed(Do(w, deed).book.links)
  {
    DeedRelinks(w, deed);
    RelinkingKeepsBound(w.book.links, Do(w, deed).book.links, if deed.Shadowed? then deed.maxParallel else 0, most);
  }

  ghost predicate AllDrawNewIds(w: World, deeds: seq<Deed>) {
    deeds == [] ||
    (AllDrawNewIds(w, deeds[..|deeds| - 1]) && DrawsNewIds(Run(w, deeds[..|deeds| - 1]).book, deeds[|deeds| - 1]))
  }

  lemma {:induction false} LinksStayBounded(deeds: seq<Deed>, most: nat)
    requires AllDrawNewIds(FRESH, deeds) && forall d :: d in deeds && d.Shadowed? ==> d.maxParallel <= most
    ensures LinksBounded(Run(FRESH, deeds).book.links, most) && LinksKeyed(Run(FRESH, deeds).book.links)
  {
    if deeds != [] {
      LinksStayBounded(deeds[..|deeds| - 1], most);
      assert deeds[|deeds| - 1] in deeds;
      DeedKeepsLinks(Run(FRESH, deeds[..|deeds| - 1]), deeds[|deeds| - 1], most);
    }
  }

  /** If no request asks for more than `most` parallel shadows, no production card ever has more active links. */
  lemma NeverTooManyShadows(deeds: seq<Deed>, most: nat, production: Uuid)
    requires AllDrawNewIds(FRESH, deeds) && forall d :: d in deeds && d.Shadowed? ==> d.maxParallel <= most
    ensures |ActiveLinks(Run(FRESH, deeds).book.links, production)| <= most
  {
    LinksStayBounded(deeds, most);
  }

  // ---- what a reused key does --------------------------------------------------------------

  /** Every card answered before is known. */
  ghost predicate AnswersKnown(s: M.Mem) {
    forall k :: k in s.idempotency && s.idempotency[k].CardReply? ==> s.idempotency[k].card.id in s.cards
  }

  lemma AnsweredCardIsKnown(s: M.Mem, c: Call)
    requires M.Valid(s) && M.Perform(s, c).result.Ok? && M.Perform(s, c).result.value.CardReply?
    ensures M.Perform(s, c).result.value.card.id in M.Perform(s, c).after.cards
  {
    X.PerformAnswersItsType(s, c);
  }

  lemma CallKeepsAnswersKnown(s: M.Mem, c: Call)
    requires M.Valid(s) && MR.FreshIds(s, c) && AnswersKnown(s)
    ensures AnswersKnown(M.Step(s, c).after)
  {
    CallGrows(s, c);
    X.PerformKeepsTable(s, c);
    if M.Perform(s, c).result.Ok? && M.Perform(s, c).result.value.CardReply? { AnsweredCardIsKnown(s, c); }
  }

  lemma {:induction false} RunKeepsAnswersKnown(start: Time, calls: seq<Call>)
    requires MR.Proper(M.Fresh, start, calls)
    ensures M.Valid(M.Run(M.Fresh, calls)) && AnswersKnown(M.Run(M.Fresh, calls))
  {
    MR.RunKeepsValid(M.Fresh, calls);
    if calls != [] {
      RunKeepsAnswersKnown(start, calls[..|calls| - 1]);
      CallKeepsAnswersKnown(M.Run(M.Fresh, calls[..|calls| - 1]), calls[|calls| - 1]);
    }
  }

  lemma CreatedCardIs(s: M.Mem, req: Request, now: Time, base: Uuid)
    requires req.CreateCard? && M.Step(s, Call(req, now, base)).result.Ok?
    ensures var o, cached := M.Step(s, Call(req, now, base)), M.Cached(s.idempotency, req.key);
      && o.result.value.CardReply?
      && (cached.Some? ==> o.result.value == cached.value && o.after == s)
      && (cached.None? ==>
            var card := o.result.value.card;
            card.id == base && card.metadata == req.metadata && base in o.after.cards && o.after.cards[base] == card)
  {
    StepFits(s, Call(req, now, base));
  }

  /** The link names the created card, and the event added afterwards changes no card. */
  lemma LinkNamesCreated(lab: Lab, production: Card, candidate: string, sampleRate: real, maxParallel: int,
    key: Option<string>, now: Time, base: Uuid)
    requires M.Valid(lab.mem)
    requires CreateShadow(lab, production, candidate, sampleRate, maxParallel, key, now, base).result.Ok?
    ensures var done := CreateShadow(lab, production, candidate, sampleRate, maxParallel, key, now, base);
      var created := M.Step(lab.mem, Call(ShadowRequest(production, candidate, key), now, base));
      && created.result == Ok(CardReply(done.result.value)) && done.after.mem.cards == created.after.cards
      && base + 2 in done.after.book.links && done.after.book.links[base + 2].shadow == done.result.value.id
  {
    var create := Call(ShadowRequest(production, candidate, key), now, base);
    var created := M.Step(lab.mem, create);
    StepFits(lab.mem, create);
    M.StepKeepsValid(lab.mem, create);
    var link := LinkFor(base + 2, production, created.result.value.card, candidate);
    NoteGrows(created.after, Call(CreatedRequest(production, link), now, base + 3));
  }

  lemma NewIffUnstored(lab: Lab, production: Card, candidate: string, sampleRate: real, maxParallel: int,
    key: Option<string>, now: Time, base: Uuid)
    requires M.Valid(lab.mem) && base !in lab.mem.cards && AnswersKnown(lab.mem)
    requires CreateShadow(lab, production, candidate, sampleRate, maxParallel, key, now, base).result.Ok?
    ensures NewExactlyUnstored(lab, CreateShadow(lab, production, candidate, sampleRate, maxParallel, key, now, base),
                               production, candidate, key, base)
  {
    LinkNamesCreated(lab, production, candidate, sampleRate, maxParallel, key, now, base);
    CreatedCardIs(lab.mem, ShadowRequest(production, candidate, key), now, base);
  }

  /** The card linked is new, and a shadow of the production card, if the key was not stored; if it
      was, it is the card stored under the key. */
  ghost predicate NewExactlyUnstored(lab: Lab, done: Shown<Card>, production: Card, candidate: string, key: Option<string>, base: Uuid)
    requires done.result.Ok?
  {
    var card := done.result.value;
    && base + 2 in done.after.book.links && done.after.book.links[base + 2].shadow == card.id
    && (card.id !in lab.mem.cards <==> M.Cached(lab.mem.idempotency, key).None?)
    && (card.id !in lab.mem.cards ==>
          IsShadow(card) && card.metadata == ShadowMetadata(production, candidate)
          && card.id in done.after.mem.cards && done.after.mem.cards[card.id] == card)
    && (card.id in lab.mem.cards ==> M.Cached(lab.mem.idempotency, key) == Some(CardReply(card)))
  }

  /** In every reachable runtime the linked card is a new shadow of the production card exactly when the
      key was not stored: under a stored key the link goes to the card made first, whatever it is. */
  lemma ShadowIsNewIff(start: Time, calls: seq<Call>, book: Book, production: Card, candidate: string, sampleRate: real,
    maxParallel: int, key: Option<string>, now: Time, base: Uuid)
    requires MR.Proper(M.Fresh, start, calls) && base !in M.Run(M.Fresh, calls).cards
    requires CreateShadow(Lab(M.Run(M.Fresh, calls), book), production, candidate, sampleRate, maxParallel, key, now, base).result.Ok?
    ensures var lab := Lab(M.Run(M.Fresh, calls), book);
      NewExactlyUnstored(lab, CreateShadow(lab, production, candidate, sampleRate, maxParallel, key, now, base),
                         production, candidate, key, base)
  {
    RunKeepsAnswersKnown(start, calls);
    NewIffUnstored(Lab(M.Run(M.Fresh, calls), book), production, candidate, sampleRate, maxParallel, key, now, base);
  }

  // ---- shadow cards never leave ------------------------------------------------------------

  /** Every `sink_executed` event is by a sink in `open`. */
  predicate OnlyOpenSinks(history: seq<CardEvent>, open: set<string>) {
    forall i :: 0 <= i < |history| && history[i].eventType == "sink_executed" ==>
      history[i].actorId.Some? && history[i].actorId.value in open
  }

  ghost predicate ShadowsHeld(cards: map<Uuid, Card>, log: map<Uuid, seq<CardEvent>>, open: set<string>) {
    forall c :: c in cards && c in log && IsShadow(cards[c]) ==> OnlyOpenSinks(log[c], open)
  }

  lemma ActHoldsShadows(a: A.Core, t: A.Timed, open: set<string>)
    requires T.Sound(a) && A.Enabled(a, t) && ShadowsHeld(a.cards, a.log, open)
    requires t.act.Record? ==> t.act.event.eventType != "sink_executed"
    ensures ShadowsHeld(A.NextCards(a, t), A.NextLog(a, t), open)
  {
    T.Written(a, t);
    if A.EventWritten(a, t).Some? {
      T.EventIsAboutACard(a, t);
      OrdinaryEvent(a, t);
      WritingHoldsShadows(a.cards, a.log, A.CardWritten(a, t), A.EventWritten(a, t).value, open);
    } else {
      T.NoEventNoChange(a, t);
    }
  }

  /** Writing a card row, of the same card or a new one, and an event no sink writes. */
  lemma WritingHoldsShadows(cards: map<Uuid, Card>, log: map<Uuid, seq<CardEvent>>, w: Option<Card>, e: CardEvent, open: set<string>)
    requires ShadowsHeld(cards, log, open) && log.Keys == cards.Keys && e.eventType != "sink_executed"
    requires w.Some? && w.value.id in cards ==> SameCard(cards[w.value.id], w.value)
    ensures ShadowsHeld(T.Upsert(cards, w), A.Append(log, e), open)
  {
  }

  lemma OrdinaryEvent(a: A.Core, t: A.Timed)
    requires A.Enabled(a, t) && (t.act.Record? ==> t.act.event.eventType != "sink_executed") && A.EventWritten(a, t).Some?
    ensures A.EventWritten(a, t).value.eventType != "sink_executed"
  {
  }

  lemma {:induction false} ActsHoldShadows(a: A.Core, ts: seq<A.Timed>, open: set<string>)
    requires T.Sound(a) && A.Legal(a, ts) && ShadowsHeld(a.cards, a.log, open)
    requires forall t :: t in ts && t.act.Record? ==> t.act.event.eventType != "sink_executed"
    ensures ShadowsHeld(A.Play(a, ts).cards, A.Play(a, ts).log, open)
  {
    if ts != [] {
      assert ts[|ts| - 1] in ts;
      ActsHoldShadows(a, ts[..|ts| - 1], open);
      T.RunSound(a, ts[..|ts| - 1]);
      ActHoldsShadows(A.Play(a, ts[..|ts| - 1]), ts[|ts| - 1], open);
    }
  }

  predicate LeavesSinkEvents(req: Request) { req.RecordEvent? ==> req.eventType != "sink_executed" }

  lemma CallHoldsShadows(s: M.Mem, c: Call, open: set<string>)
    requires M.Valid(s) && MR.FreshIds(s, c) && LeavesSinkEvents(c.req) && ShadowsHeld(s.cards, s.events, open)
    ensures ShadowsHeld(M.Step(s, c).after.cards, M.Step(s, c).after.events, open)
  {
    MR.StepRefines(s, c);
    MR.RecordsAreAsked(s, c);
    ActsHoldShadows(MR.CoreOf(s), MR.StepActs(s, c), open);
  }

  lemma AppendHoldsShadows(cards: map<Uuid, Card>, log: map<Uuid, seq<CardEvent>>, e: CardEvent, open: set<string>)
    requires ShadowsHeld(cards, log, open)
    requires e.eventType == "sink_executed" && e.cardId in cards && IsShadow(cards[e.cardId]) ==>
      e.actorId.Some? && e.actorId.value in open
    ensures ShadowsHeld(cards, A.Append(log, e), open)
  {
  }

  /** A recorded event is appended, or nothing is. */
  lemma NoteAppends(s: M.Mem, c: Call)
    requires c.req.RecordEvent?
    ensures var t := M.Step(s, c).after;
      t.cards == s.cards && (t.events == s.events || t.events == A.Append(s.events,
        CardEvent(c.base, c.req.cardId, c.req.eventType, c.req.actorId, c.req.payload, c.now)))
  {
  }

  /** Recording an event keeps shadows held unless it puts a closed sink's event on one. */
  lemma NoteHoldsShadows(s: M.Mem, c: Call, open: set<string>)
    requires c.req.RecordEvent? && ShadowsHeld(s.cards, s.events, open)
    requires c.req.eventType == "sink_executed" && c.req.cardId in s.cards && IsShadow(s.cards[c.req.cardId]) ==>
      c.req.actorId.Some? && c.req.actorId.value in open
    ensures ShadowsHeld(M.Step(s, c).after.cards, M.Step(s, c).after.events, open)
  {
    NoteAppends(s, c);
    AppendHoldsShadows(s.cards, s.events, CardEvent(c.base, c.req.cardId, c.req.eventType, c.req.actorId, c.req.payload, c.now), open);
  }

  lemma RegisteringHoldsShadows(st: Studio, panel: PatchPanel)
    requires P.Orderly(st)
    ensures var after := M.Register(st.mem, panel).after; after.cards == st.mem.cards && after.events == st.mem.events
  {
    RegisterGrows(st.mem, panel);
  }

  predicate SameRecords(s: M.Mem, t: M.Mem) { t.cards == s.cards && t.events == s.events }

  lemma PublishingKeepsRecords(st: Studio, node: Node, card: Card, reference: Option<string>, base: Uuid)
    requires P.Orderly(st)
    ensures SameRecords(st.mem, Publish(st, node, card, reference, base).after.mem)
  {
    if Get(card.payload, "candidate_definition").PanelValue? {
      RegisteringHoldsShadows(st, Get(card.payload, "candidate_definition").panel);
    }
  }

  lemma PublicationKeepsRecords(st: Studio, hasRegistry: bool, node: Node, card: Card, reference: Option<string>, base: Uuid)
    requires P.Orderly(st)
    ensures SameRecords(st.mem, ConfiguredSink(st, hasRegistry, node, card, reference, base).after.mem)
  {
    PublishingKeepsRecords(st, node, card, reference, base);
  }

  /** A sink that does not allow shadow egress runs on no shadow card. */
  lemma SinkHoldsShadows(st: Studio, panel: PatchPanel, hasRegistry: bool, cardId: Uuid, sinkId: string,
    reference: Option<string>, key: Option<string>, now: Time, base: Uuid, open: set<string>)
    requires P.Orderly(st) && base !in st.shelf.entries && ShadowsHeld(st.mem.cards, st.mem.events, open)
    requires var node := NodeOf(panel.nodes, sinkId, NodeType.Sink); node.Ok? && AllowsShadows(node.value) ==> sinkId in open
    ensures var after := SinkRun(st, panel, hasRegistry, cardId, sinkId, reference, key, now, base).after.mem;
      ShadowsHeld(after.cards, after.events, open)
  {
    var checked := SinkChecks(st.mem.cards, panel, cardId, sinkId);
    if checked.Ok? {
      var node, card := checked.value, st.mem.cards[cardId];
      var done := ConfiguredSink(st, hasRegistry, node, card, reference, base);
      PublicationKeepsRecords(st, hasRegistry, node, card, reference, base);
      P.PublishKeeps(st, node, card, reference, base);
      if done.result.Ok? {
        NoteHoldsShadows(done.after.mem, Call(SinkRecord(cardId, node, done.result.value, key), now, base + 1), open);
      }
    }
  }

  ghost predicate LeavesRecords(turn: B.Turn) {
    forall st, c, id {:trigger turn(st, c, id)} :: P.Orderly(st) ==> SameRecords(st.mem, turn(st, c, id).after.mem)
  }

  lemma {:induction false} LoopLeavesRecords(turn: B.Turn, st: Studio, cs: seq<B.Configured>, k: nat, base: Uuid)
    requires LeavesRecords(turn) && P.KeepsOrder(turn) && B.Careful(turn)
    requires P.Orderly(st) && B.NewEntryIds(st.shelf, base, |cs|) && k <= |cs|
    ensures SameRecords(st.mem, B.Loop(turn, st, cs, k, base).after.mem)
  {
    if k > 0 {
      LoopLeavesRecords(turn, st, cs, k - 1, base);
      P.LoopKeepsOrder(turn, st, cs, k - 1, base);
    }
  }

  lemma BootstrapLeavesRecords(st: Studio, cs: seq<B.Configured>, base: Uuid)
    requires P.Orderly(st) && B.NewEntryIds(st.shelf, base, |cs|)
    ensures SameRecords(st.mem, B.Load(st, cs, base).after.mem)
  {
    B.LoadOneIsAll();
    forall x, c, id | P.Orderly(x) && id !in x.shelf.entries
      ensures P.Orderly(B.LoadOne(x, c, id).after) && Grows(x.mem, B.LoadOne(x, c, id).after.mem)
    { P.TurnKeeps(x, c, id); }
    forall x, c, id | P.Orderly(x)
      ensures SameRecords(x.mem, B.LoadOne(x, c, id).after.mem)
    { RegisteringHoldsShadows(x, c.panel); }
    LoopLeavesRecords(B.LoadOne, st, cs, |cs|, base);
  }

  ghost predicate Holds(st: Studio, open: set<string>) {
    P.Orderly(st) && ShadowsHeld(st.mem.cards, st.mem.events, open)
  }

  ghost predicate Held(w: World, open: set<string>) { Holds(w.studio, open) }

  /** Drawn ids are new, `sink_executed` is left to the sinks, and sinks that allow shadow egress are in `open`. */
  ghost predicate Proper(w: World, deed: Deed, open: set<string>) {
    match deed
    case Elsewhere(d) =>
      && P.DrawsNewIds(w.studio, d)
      && (d.RuntimeCall? ==> LeavesSinkEvents(d.call.req))
      && (d.SinkExecution? ==>
            var node := NodeOf(d.panel.nodes, d.sinkId, NodeType.Sink); node.Ok? && AllowsShadows(node.value) ==> d.sinkId in open)
    case Shadowed(_, _, _, _, _, _, base) => base !in w.studio.mem.cards && base !in w.studio.mem.leases
    case _ => true
  }

  lemma ElsewhereHolds(w: World, d: P.Deed, open: set<string>)
    requires Held(w, open) && Proper(w, Elsewhere(d), open)
    ensures Held(w.(studio := P.Do(w.studio, d)), open)
  {
    P.DeedKeeps(w.studio, d);
    match d
    case RuntimeCall(call) => CallHoldsShadows(w.studio.mem, call, open);
    case SinkExecution(panel, hasRegistry, cardId, sinkId, reference, key, now, base) =>
      SinkHoldsShadows(w.studio, panel, hasRegistry, cardId, sinkId, reference, key, now, base, open);
    case Bootstrapping(configured, base) => BootstrapLeavesRecords(w.studio, configured, base);
    case RegistryEdit(_) =>
  }

  /** A runtime call that leaves `sink_executed` to the sinks. */
  lemma CallHolds(st: Studio, c: Call, open: set<string>)
    requires Holds(st, open) && LeavesSinkEvents(c.req)
    requires c.req.RecordEvent? || MR.FreshIds(st.mem, c)
    ensures Holds(st.(mem := M.Step(st.mem, c).after), open)
  {
    if c.req.RecordEvent? {
      P.NoteKeeps(st, c);
      NoteHoldsShadows(st.mem, c, open);
    } else {
      P.DeedKeeps(st, P.RuntimeCall(c));
      CallHoldsShadows(st.mem, c, open);
    }
  }

  lemma CallsHold(st: Studio, c: Call, d: Call, open: set<string>)
    requires Holds(st, open) && LeavesSinkEvents(c.req) && MR.FreshIds(st.mem, c)
    requires LeavesSinkEvents(d.req) && d.req.RecordEvent?
    ensures Holds(st.(mem := M.Step(M.Step(st.mem, c).after, d).after), open)
  {
    CallHolds(st, c, open);
    CallHolds(st.(mem := M.Step(st.mem, c).after), d, open);
  }

  /** Creating a shadow is at most two runtime calls. */
  lemma ShadowingCalls(lab: Lab, production: Card, candidate: string, sampleRate: real, maxParallel: int,
    key: Option<string>, now: Time, base: Uuid) returns (c: Call, d: Call)
    ensures c.req.CreateCard? && c.base == base && d.req.RecordEvent? && d.req.eventType == "shadow_created"
    ensures var after := CreateShadow(lab, production, candidate, sampleRate, maxParallel, key, now, base).after.mem;
      after == lab.mem || after == M.Step(lab.mem, c).after || after == M.Step(M.Step(lab.mem, c).after, d).after
  {
    c := Call(ShadowRequest(production, candidate, key), now, base);
    d := Call(CreatedRequest(production, LinkFor(0, production, production, candidate)), now, base + 3);
    StepFits(lab.mem, c);
    if M.Step(lab.mem, c).result.Ok? {
      var link := LinkFor(base + 2, production, M.Step(lab.mem, c).result.value.card, candidate);
      d := Call(CreatedRequest(production, link), now, base + 3);
    }
  }

  lemma ShadowingHolds(st: Studio, book: Book, production: Card, candidate: string, sampleRate: real, maxParallel: int,
    key: Option<string>, now: Time, base: Uuid, open: set<string>)
    requires Holds(st, open) && base !in st.mem.cards && base !in st.mem.leases
    ensures Holds(st.(mem := CreateShadow(Lab(st.mem, book),
      production, candidate, sampleRate, maxParallel, key, now, base).after.mem), open)
  {
    var c, d := ShadowingCalls(Lab(st.mem, book), production, candidate, sampleRate, maxParallel, key, now, base);
    CallHolds(st, c, open);
    CallsHold(st, c, d, open);
  }

  lemma CompletingHolds(st: Studio, book: Book, linkId: Uuid, metrics: Json, now: Time, base: Uuid, open: set<string>)
    requires Holds(st, open)
    ensures Holds(st.(mem := CompleteShadow(Lab(st.mem, book), linkId, metrics, now, base).after.mem), open)
  {
    if linkId in book.links {
      CallHolds(st, Call(CompletedRequest(book.links[linkId].(status := Completed, metrics := metrics), metrics), now, base), open);
    }
  }

  lemma PromotingHolds(st: Studio, book: Book, id: Uuid, panel: PatchPanel, now: Time, open: set<string>)
    requires Holds(st, open)
    ensures Holds(st.(mem := PromoteMutation(Lab(st.mem, book), id, panel, now).after.mem), open)
  {
    P.RegisteringKeeps(st, panel);
    RegisteringHoldsShadows(st, panel);
  }

  lemma DeedHolds(w: World, deed: Deed, open: set<string>)
    requires Held(w, open) && Proper(w, deed, open)
    ensures Held(Do(w, deed), open)
  {
    match deed
    case Elsewhere(d) => ElsewhereHolds(w, d, open);
    case Shadowed(production, candidate, sampleRate, maxParallel, key, now, base) =>
      ShadowingHolds(w.studio, w.book, production, candidate, sampleRate, maxParallel, key, now, base, open);
    case Completing(link, metrics, now, base) => CompletingHolds(w.studio, w.book, link, metrics, now, base, open);
    case Promoting(mutation, panel, now) => PromotingHolds(w.studio, w.book, mutation, panel, now, open);
    case _ =>
  }

  ghost predicate AllProper(w: World, deeds: seq<Deed>, open: set<string>) {
    deeds == [] ||
    (AllProper(w, deeds[..|deeds| - 1], open) && Proper(Run(w, deeds[..|deeds| - 1]), deeds[|deeds| - 1], open))
  }

  lemma {:induction false} RunHolds(w: World, deeds: seq<Deed>, open: set<string>)
    requires Held(w, open) && AllProper(w, deeds, open)
    ensures Held(Run(w, deeds), open)
  {
    if deeds != [] {
      RunHolds(w, deeds[..|deeds| - 1], open);
      DeedHolds(Run(w, deeds[..|deeds| - 1]), deeds[|deeds| - 1], open);
    }
  }

  /** Over all runs, a card with shadow metadata carries a `sink_executed` event only of a sink that
      allows shadow egress; where no sink does, it carries none. */
  lemma ShadowsNeverEgress(deeds: seq<Deed>, open: set<string>, c: Uuid)
    requires AllProper(FRESH, deeds, open)
    requires c in Run(FRESH, deeds).studio.mem.cards && IsShadow(Run(FRESH, deeds).studio.mem.cards[c])
    ensures var mem := Run(FRESH, deeds).studio.mem;
      && c in mem.events && OnlyOpenSinks(mem.events[c], open)
      && (open == {} ==> forall i :: 0 <= i < |mem.events[c]| ==> mem.events[c][i].eventType != "sink_executed")
  {
    P.FreshIsOrderly();
    RunHolds(FRESH, deeds, open);
  }

  // ---- mutations keep their order ----------------------------------------------------------

  /** What is settled was validated before, and what is promoted was accepted. */
  predicate InOrder(m: Mutation) {
    && (m.status != Shadowing ==> m.validatedAt.Some?)
    && (m.status == Promoted ==> m.promotedAt.Some? && m.validatedAt.value <= m.promotedAt.value)
  }

  /** The clock reading of a deed that judges or promotes is not before `early`. */
  predicate Later(early: Time, deed: Deed) {
    (deed.Judging? ==> early <= deed.now) && (deed.Promoting? ==> early <= deed.now)
  }

  predicate MutationsInOrder(mutations: map<Uuid, Mutation>, now: Time) {
    forall m :: m in mutations ==> InOrder(mutations[m]) && (mutations[m].validatedAt.Some? ==> mutations[m].validatedAt.value <= now)
  }

  function ClockOf(early: Time, deed: Deed): Time {
    if deed.Judging? || deed.Promoting? then deed.now else early
  }

  lemma JudgingKeepsOrder(book: Book, id: Uuid, accepted: bool, validatorId: string, reason: Option<string>, now: Time, early: Time)
    requires MutationsInOrder(book.mutations, early) && early <= now && id in book.mutations
    ensures MutationsInOrder(ValidateMutation(book, id, accepted, validatorId, reason, now).value.mutations, now)
  {
  }

  lemma PromotingKeepsOrder(lab: Lab, id: Uuid, panel: PatchPanel, now: Time, early: Time)
    requires MutationsInOrder(lab.book.mutations, early) && early <= now
    ensures MutationsInOrder(PromoteMutation(lab, id, panel, now).after.book.mutations, now)
  {
  }

  lemma DeedKeepsOrder(w: World, deed: Deed, early: Time)
    requires MutationsInOrder(w.book.mutations, early) && Later(early, deed)
    ensures MutationsInOrder(Do(w, deed).book.mutations, ClockOf(early, deed))
  {
    match deed
    case Judging(id, accepted, validatorId, reason, now) =>
      if id in w.book.mutations { JudgingKeepsOrder(w.book, id, accepted, validatorId, reason, now, early); }
    case Promoting(id, panel, now) => PromotingKeepsOrder(Lab(w.studio.mem, w.book), id, panel, now, early);
    case _ =>
  }

  /** A mutation becomes promoted only from validated, and only with a panel the validator accepts. */
  lemma PromotionNeedsVerdicts(lab: Lab, id: Uuid, panel: PatchPanel, now: Time)
    ensures var done := PromoteMutation(lab, id, panel, now);
      done.result.Ok? <==> id in lab.book.mutations && lab.book.mutations[id].status == Validated && Accepted(panel)
    ensures PromoteMutation(lab, id, panel, now).result.Err? ==> PromoteMutation(lab, id, panel, now).after == lab
  {
  }

  /** The deed gives a verdict on the mutation, or settles it by a promotion that can succeed. */
  ghost predicate Settles(deed: Deed, id: Uuid) {
    || (deed.Judging? && deed.mutation == id)
    || (deed.Promoting? && deed.mutation == id && Accepted(deed.panel))
  }

  /** The last deed to settle the mutation is a verdict that accepts it. */
  ghost predicate AcceptedLast(deeds: seq<Deed>, id: Uuid) {
    exists k :: 0 <= k < |deeds| && deeds[k].Judging? && deeds[k].mutation == id && deeds[k].accepted
      && forall j :: k < j < |deeds| ==> !Settles(deeds[j], id)
  }

  lemma AcceptedLastSnoc(deeds: seq<Deed>, id: Uuid, last: Deed)
    ensures AcceptedLast(deeds + [last], id) <==>
      if Settles(last, id) then last.Judging? && last.accepted else AcceptedLast(deeds, id)
  {
    var more := deeds + [last];
    if Settles(last, id) {
      assert more[|deeds|] == last;
    } else {
      assert forall k :: 0 <= k < |deeds| ==> more[k] == deeds[k];
    }
  }

  lemma DeedSettles(w: World, deed: Deed, id: Uuid)
    requires id in w.book.mutations && DrawsNewIds(w.book, deed)
    ensures var after := Do(w, deed).book.mutations;
      id in after && (after[id].status == Validated <==>
        if Settles(deed, id) then deed.Judging? && deed.accepted else w.book.mutations[id].status == Validated)
  {
  }

  lemma {:induction false} ValidatedIffAcceptedLast(w: World, id: Uuid, deeds: seq<Deed>)
    requires id in w.book.mutations && w.book.mutations[id].status == Shadowing && AllDrawNewIds(w, deeds)
    ensures id in Run(w, deeds).book.mutations
    ensures Run(w, deeds).book.mutations[id].status == Validated <==> AcceptedLast(deeds, id)
  {
    if deeds != [] {
      var front, last := deeds[..|deeds| - 1], deeds[|deeds| - 1];
      ValidatedIffAcceptedLast(w, id, front);
      DeedSettles(Run(w, front), last, id);
      AcceptedLastSnoc(front, id, last);
      assert deeds == front + [last];
    }
  }

  /** A proposed mutation can be promoted exactly when, of all that happened since, the last deed to
      settle it is a verdict that accepts it, and the panel is accepted. */
  lemma PromotesIffAcceptedLast(w: World, kind: string, proposedBy: string, payload: Json, id: Uuid, deeds: seq<Deed>,
    panel: PatchPanel, now: Time)
    requires AllDrawNewIds(Do(w, Proposing(kind, proposedBy, payload, id)), deeds)
    ensures var x := Run(Do(w, Proposing(kind, proposedBy, payload, id)), deeds);
      PromoteMutation(Lab(x.studio.mem, x.book), id, panel, now).result.Ok? <==> AcceptedLast(deeds, id) && Accepted(panel)
  {
    var before := Do(w, Proposing(kind, proposedBy, payload, id));
    var x := Run(before, deeds);
    ValidatedIffAcceptedLast(before, id, deeds);
    PromotionNeedsVerdicts(Lab(x.studio.mem, x.book), id, panel, now);
  }

  ghost function Clock(early: Time, deeds: seq<Deed>): Time {
    if deeds == [] then early else ClockOf(Clock(early, deeds[..|deeds| - 1]), deeds[|deeds| - 1])
  }

  ghost predicate InTime(early: Time, deeds: seq<Deed>) {
    deeds == [] || (InTime(early, deeds[..|deeds| - 1]) && Later(Clock(early, deeds[..|deeds| - 1]), deeds[|deeds| - 1]))
  }

  /** In every run a promoted mutation was validated no later than it was promoted. */
  lemma {:induction false} MutationsStayInOrder(early: Time, deeds: seq<Deed>)
    requires InTime(early, deeds)
    ensures MutationsInOrder(Run(FRESH, deeds).book.mutations, Clock(early, deeds))
  {
    if deeds != [] {
      MutationsStayInOrder(early, deeds[..|deeds| - 1]);
      DeedKeepsOrder(Run(FRESH, deeds[..|deeds| - 1]), deeds[|deeds| - 1], Clock(early, deeds[..|deeds| - 1]));
    }
  }

  // ---- the service -------------------------------------------------------------------------

  class ShadowService {
    const runtime: InMemoryCardRuntime
    var links: map<Uuid, Link>
    var mutations: map<Uuid, Mutation>

    constructor (runtime: InMemoryCardRuntime)
      ensures this.runtime == runtime && links == map[] && mutations == map[]
    {
      this.runtime, links, mutations := runtime, map[], map[];
    }

    ghost function Contents(): Lab
      reads this, runtime
    {
      Lab(runtime.Snapshot(), Book(links, mutations))
    }

    /** The link and the production card's event. */
    method LinkShadow(production: Card, link: Link, now: Time, base: Uuid) returns (noted: Result<Reply, Error>)
      modifies this, runtime
      ensures links == old(links)[link.id := link] && mutations == old(mutations)
      ensures M.Outcome(runtime.Snapshot(), noted)
           == M.Step(old(runtime.Snapshot()), Call(CreatedRequest(production, link), now, base))
    {
      links := links[link.id := link];
      noted := runtime.RecordEvent(production.id, "shadow_created", Some(link.candidate), CreatedNote(link), None, now, base);
    }

    method CreateShadowCard(production: Card, candidate: string, sampleRate: real, maxParallel: int, key: Option<string>,
      now: Time, base: Uuid) returns (r: Result<Card, Error>)
      modifies this, runtime
      ensures Shown(Contents(), r) == CreateShadow(old(Contents()), production, candidate, sampleRate, maxParallel, key, now, base)
    {
      if sampleRate <= 0.0 {
        return Err(InvalidOperation);
      }
      var active := ActiveLinks(links, production.id);
      if |active| >= maxParallel {
        return Err(Conflict);
      }
      ghost var before := runtime.Snapshot();
      var request := ShadowRequest(production, candidate, key);
      StepFits(before, Call(request, now, base));
      var created := runtime.CreateCard(request.panelId, request.payload, request.metadata, request.key, now, base);
      assert M.Step(before, Call(request, now, base)) == M.Outcome(runtime.Snapshot(), created);
      if created.Err? {
        return Err(created.error);
      }
      var card := created.value.card;
      var noted := LinkShadow(production, LinkFor(base + 2, production, card, candidate), now, base + 3);
      r := if noted.Ok? then Ok(card) else Err(noted.error);
    }

    method Complete(linkId: Uuid, metrics: Json, now: Time, base: Uuid) returns (r: Result<Link, Error>)
      modifies this, runtime
      ensures Shown(Contents(), r) == CompleteShadow(old(Contents()), linkId, metrics, now, base)
    {
      if linkId !in links {
        return Err(NotFound);
      }
      ghost var before := runtime.Snapshot();
      var completed := links[linkId].(status := Completed, metrics := metrics);
      links := links[linkId := completed];
      var request := CompletedRequest(completed, metrics);
      var noted := runtime.RecordEvent(request.cardId, request.eventType, request.actorId, request.payload, None, now, base);
      assert M.Step(before, Call(request, now, base)) == M.Outcome(runtime.Snapshot(), noted);
      r := if noted.Ok? then Ok(completed) else Err(noted.error);
    }

    /** The mutation is listed as shadowing, no other changes, and no promotion of it succeeds yet. */
    method Propose(kind: string, proposedBy: string, payload: Json, id: Uuid)
      modifies this
      ensures id in mutations && mutations[id].status == Shadowing && mutations - {id} == old(mutations) - {id}
      ensures forall panel, now :: PromoteMutation(Contents(), id, panel, now).result == Err(Conflict)
      ensures Contents() == old(Contents()).(book := ProposeMutation(old(Contents()).book, kind, proposedBy, payload, id))
    {
      mutations := mutations[id := Mutation(id, kind, proposedBy, payload, Shadowing, None, None)];
    }

    method Judge(id: Uuid, accepted: bool, validatorId: string, reason: Option<string>, now: Time) returns (r: Result<Mutation, Error>)
      modifies this
      ensures var judged := ValidateMutation(old(Contents()).book, id, accepted, validatorId, reason, now);
        Contents() == old(Contents()).(book := if judged.Ok? then judged.value else old(Contents()).book)
        && (r.Ok? <==> judged.Ok?) && (r.Ok? ==> mutations[id] == r.value)
    {
      if id !in mutations {
        return Err(NotFound);
      }
      var note := Obj(map["validator_id" := Str(validatorId), "reason" := OptStr(reason)]);
      var judged := mutations[id].(status := if accepted then Validated else Rejected, validatedAt := Some(now),
                                   payload := mutations[id].payload["validation" := note]);
      mutations := mutations[id := judged];
      r := Ok(judged);
    }

    method Promote(id: Uuid, panel: PatchPanel, now: Time) returns (r: Result<Mutation, Error>)
      modifies this, runtime
      ensures Shown(Contents(), r) == PromoteMutation(old(Contents()), id, panel, now)
    {
      if id !in mutations {
        return Err(NotFound);
      }
      var mutation := mutations[id];
      if mutation.status != Validated {
        return Err(Conflict);
      }
      var registered := runtime.RegisterPatchPanel(panel, now, id);
      if registered.Err? {
        return Err(registered.error);
      }
      var promoted := mutation.(status := Promoted, promotedAt := Some(now));
      mutations := mutations[id := promoted];
      r := Ok(promoted);
    }
  }
}
