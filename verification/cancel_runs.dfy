/** A cancel from the client's request to the gateway's ledger: the order leaves its engine's book, and what was
    reserved for it is free again. */
module CancelRuns {
  import opened Common
  import opened PriceTimeBook
  import opened EngineSpec
  import opened EndToEnd
  import opened StrandedReservations
  import opened OrderOutcomes
  import G = GatewayProtocol
  import L = GatewayLedger

  /** Nothing but the order's entry is gone, and its account has its amount back. */
  predicate GivenBack(g: G.Gateway, g': G.Gateway, id: OrderId)
    requires id in g.pending
  {
    var token := g.pending[id].token;
    && g'.pending == g.pending - {id}
    && g'.locals == g.locals
    && g'.inFlight == g.inFlight
    && g'.ledger == if token.accountId !in g.ledger then g.ledger
                    else g.ledger[token.accountId := g.ledger[token.accountId].(
                           reserved := g.ledger[token.accountId].reserved - token.amount)]
  }

  /** An acknowledgement gives the reservation back if a cancel was marked and not taken back, and otherwise leaves
      everything as it is. */
  lemma AckSettlesMarked(g: G.Gateway, id: OrderId)
    requires id in g.pending && g.pending[id].operation.Active?
    ensures GivenBack(g, G.Apply(G.Apply(g, G.MarkCancel(id)), G.OnAck(id)), id)
    ensures G.Apply(g, G.OnAck(id)) == g
    ensures G.Apply(G.Apply(g, G.MarkCancel(id)), G.RestoreActive(id)) == g
  {
    var marked := G.Apply(g, G.MarkCancel(id));
    assert marked.pending - {id} == g.pending - {id};
    assert marked.pending[id := marked.pending[id].(operation := G.Active)] == g.pending;
  }

  /** A replace that goes through makes the entry active again, so the acknowledgement that follows, of the replace or
      of a cancel before it, gives nothing back. From another connection it leaves the entry as it is. */
  lemma ReplaceForgetsCancel(g: G.Gateway, conn: G.ConnId, r: Replace)
    requires r.orderId in g.pending
    requires L.ReplaceViolation(g.ledger, g.pending[r.orderId].token, r).None?
    ensures var marked, key := G.Apply(g, G.MarkCancel(r.orderId)), G.LocalKey(conn, r.orderId);
            var g' := G.Apply(marked, G.OnReplace(conn, r));
            var token := L.Token(r.accountId, r.symbolId, r.newPrice * r.newQty, r.orderId);
            if key in g.locals
            then && r.orderId in g'.pending
                 && g'.pending[r.orderId] == G.Metadata(token, g.locals[key], G.Active, conn)
                 && G.Apply(g', G.OnAck(r.orderId)) == g'
            else g'.pending == marked.pending
  {
  }

  /** A new order is tracked with its token and side, active, under the connection that sent it. */
  lemma TrackedEntry(g: G.Gateway, flight: nat, conn: G.ConnId, id: OrderId, side: Side)
    requires flight < |g.inFlight|
    ensures var g' := G.Apply(g, G.TrackNew(flight, conn, id, side));
            && g'.pending == g.pending[id := G.Metadata(g.inFlight[flight], side, G.Active, conn)]
            && g'.locals == g.locals[G.LocalKey(conn, id) := side]
            && g'.ledger == g.ledger
  {
  }

  lemma RejectGivesBack(g: G.Gateway, id: OrderId)
    requires id in g.pending
    ensures GivenBack(g, G.Apply(g, G.OnReject(id)), id)
  {
  }

  /** The engine's answer to a cancel, behind what was on its way before. */
  predicate AnswerWaits(s: System, y: SymbolId, before: seq<Event>, id: OrderId) {
    && y in s.links
    && |s.links[y].events| == |before| + 2
    && s.links[y].events[..|before|] == before
    && s.links[y].events[|before|].BookTop?
    && s.links[y].events[|before| + 1].Ack?
    && s.links[y].events[|before| + 1].orderId == id
  }

  lemma AnswerIsHandled(s: System, y: SymbolId, before: seq<Event>, id: OrderId)
    requires BooksOk(s) && AnswerWaits(s, y, before, id)
    ensures var hs, n := [Deliver(y, |before|)] + ([Deliver(y, |before|)] + []), |before|;
            && AllPossible(s, hs)
            && var s' := After(s, hs);
               && s'.gateway == G.Apply(s.gateway, G.OnAck(id))
               && y in s'.links
               && s'.links[y] == s.links[y].(events := before)
  {
    hide BooksOk, G.Apply;
    var n, evs := |before|, s.links[y].events;
    var s1 := Next(s, Deliver(y, n));
    assert G.Without(evs, n) == before + [evs[n + 1]];
    assert G.Without(before + [evs[n + 1]], n) == before;
    var s2 := Next(s1, Deliver(y, n));
    assert s2.links[y] == s.links[y].(events := before);
    NothingMore(s2);
    HappensFirst(s1, Deliver(y, n), []);
    HappensFirst(s, Deliver(y, n), [Deliver(y, n)] + []);
  }

  lemma CancelWaits(s: System, c: Cancel)
    requires BooksOk(s) && c.symbolId in s.links && s.links[c.symbolId].engine.symbolId == c.symbolId
    requires Owns(s.links[c.symbolId].engine.book, c.orderId, c.accountId)
    ensures var y, link := c.symbolId, s.links[c.symbolId];
            var s1 := Next(s, RouteCancel(c));
            && Possible(s1, Execute(y, |link.commands|))
            && var s2 := Next(s1, Execute(y, |link.commands|));
               && s2.gateway == s.gateway
               && AnswerWaits(s2, y, link.events, c.orderId)
               && s2.links[y].commands == link.commands
               && Lookup(s2.links[y].engine.book, c.orderId).None?
  {
    hide BooksOk, CancelStep, Owns, Lookup, Next;
    var y, link := c.symbolId, s.links[c.symbolId];
    BookAt(s, y);
    DeadCancelIsAnswered(s, c);
    CancelOutcome(link.engine, c, c.orderId + 1);
    var evs := link.events + CancelStep(link.engine, c).events;
    assert evs[..|link.events|] == link.events;
  }

  function CancelRun(s: System, c: Cancel): seq<Happening>
    requires c.symbolId in s.links
  {
    var link := s.links[c.symbolId];
    [MarkCancel(c.orderId)] + ([RouteCancel(c)] + ([Execute(c.symbolId, |link.commands|)]
    + ([Deliver(c.symbolId, |link.events|)] + ([Deliver(c.symbolId, |link.events|)] + []))))
  }

  /** A cancel of an order that rests, routed, executed and answered: the order is gone from the book, its entry from
      the gateway, and its reservation is given back. What else was on the way still is. */
  lemma CancelReleases(s: System, c: Cancel)
    requires BooksOk(s) && c.symbolId in s.links && s.links[c.symbolId].engine.symbolId == c.symbolId
    requires Owns(s.links[c.symbolId].engine.book, c.orderId, c.accountId)
    requires c.orderId in s.gateway.pending && s.gateway.pending[c.orderId].operation.Active?
    ensures var hs, link := CancelRun(s, c), s.links[c.symbolId];
            && AllPossible(s, hs)
            && var s' := After(s, hs);
               && GivenBack(s.gateway, s'.gateway, c.orderId)
               && c.symbolId in s'.links
               && Lookup(s'.links[c.symbolId].engine.book, c.orderId).None?
               && s'.links[c.symbolId].commands == link.commands
               && s'.links[c.symbolId].events == link.events
  {
    hide BooksOk, Owns, Lookup, GivenBack, AnswerWaits, Executed;
    var y, link := c.symbolId, s.links[c.symbolId];
    var s1 := Next(s, MarkCancel(c.orderId));
    CancelWaits(s1, c);
    var s2 := Next(s1, RouteCancel(c));
    var s3 := Next(s2, Execute(y, |link.commands|));
    AnswerIsHandled(s3, y, link.events, c.orderId);
    AckSettlesMarked(s.gateway, c.orderId);
    var answer := [Deliver(y, |link.events|)] + ([Deliver(y, |link.events|)] + []);
    HappensFirst(s2, Execute(y, |link.commands|), answer);
    HappensFirst(s1, RouteCancel(c), [Execute(y, |link.commands|)] + answer);
    HappensFirst(s, MarkCancel(c.orderId), [RouteCancel(c)] + ([Execute(y, |link.commands|)] + answer));
  }
}
