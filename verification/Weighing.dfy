/** Weighing the copies of a Send: a copy weighs more than all the copies it can become at the next place, so each
    move of copies lowers the total, whatever the fan-out. */
module Weighing {
  import opened Routing
  import opened Network

  // ---- where the copies are ----

  datatype EdgeCount = EdgeCount(queue: nat, up: nat, box: nat, down: nat)
  datatype RouterCount = RouterCount(out: nat, pub: nat, inbox: nat)

  /** How many copies of a Send each place holds. */
  datatype Places = Places(edge: map<Edge, EdgeCount>, router: map<Router, RouterCount>, agent: map<Agent, nat>)

  // ---- a weight for each place ----

  datatype Weights = Weights(queue: nat, up: nat, out: nat, pub: nat, inbox: nat, box: nat, down: nat)

  function Times(w: nat, n: nat): nat {
    w * n
  }

  lemma TimesSum(w: nat, m: nat, n: nat)
    ensures Times(w, m + n) == Times(w, m) + Times(w, n)
  {
    assert w * (m + n) == w * m + w * n;
  }

  lemma TimesNext(w: nat, n: nat)
    ensures Times(w, n + 1) == Times(w, n) + w
  {
    TimesSum(w, n, 1);
  }

  lemma {:induction false} TimesGrows(v: nat, w: nat, m: nat, n: nat)
    requires v <= w && m <= n
    ensures Times(v, m) <= Times(w, n)
  {
    if n > 0 {
      TimesNext(w, n - 1);
      if m < n {
        TimesGrows(v, w, m, n - 1);
      } else {
        TimesNext(v, m - 1);
        hide Times;
        TimesGrows(v, w, m - 1, n - 1);
      }
    }
  }

  lemma TimesLess(v: nat, w: nat, n: nat)
    requires v < w && n > 0
    ensures Times(v, n) < Times(w, n)
  {
    hide Times;
    TimesGrows(v, w, n - 1, n - 1);
    TimesNext(v, n - 1);
    TimesNext(w, n - 1);
  }

  /** A copy weighs more than all the copies it can become at the next place. */
  function WeightsOf(cfg: Config): (w: Weights)
    ensures w.down > |cfg.agents| && w.box > w.down && w.inbox > Times(w.box, |cfg.edges|) && w.pub > w.inbox
    ensures w.out > Times(w.pub, |cfg.routers|) && w.up > w.out + Times(w.box, |cfg.edges|) && w.queue > w.up
  {
    var down := |cfg.agents| + 1;
    var box := down + 1;
    var inbox := Times(box, |cfg.edges|) + 1;
    var pub := inbox + 1;
    var out := Times(pub, |cfg.routers|) + 1;
    var up := out + Times(box, |cfg.edges|) + 1;
    Weights(up + 1, up, out, pub, inbox, box, down)
  }

  function EdgeWeight(w: Weights): EdgeCount -> nat {
    (c: EdgeCount) => Times(w.queue, c.queue) + Times(w.up, c.up) + Times(w.box, c.box) + Times(w.down, c.down)
  }

  function RouterWeight(w: Weights): RouterCount -> nat {
    (c: RouterCount) => Times(w.out, c.out) + Times(w.pub, c.pub) + Times(w.inbox, c.inbox)
  }

  function AgentWeight(): nat -> nat {
    (c: nat) => c
  }

  ghost function Total<K, V>(m: map<K, V>, weight: V -> nat): nat
    decreases |m|
  {
    if m == map[] then 0
    else
      var k :| k in m;
      weight(m[k]) + Total(m - {k}, weight)
  }

  ghost function Measure(w: Weights, p: Places): nat {
    Total(p.edge, EdgeWeight(w)) + Total(p.router, RouterWeight(w)) + Total(p.agent, AgentWeight())
  }

  // ---- totals ----

  lemma {:induction false} TotalAt<K, V>(m: map<K, V>, weight: V -> nat, k: K)
    requires k in m
    ensures Total(m, weight) == weight(m[k]) + Total(m - {k}, weight)
    decreases |m|
  {
    var first :| first in m && Total(m, weight) == weight(m[first]) + Total(m - {first}, weight);
    if first != k {
      TotalAt(m - {first}, weight, k);
      TotalAt(m - {k}, weight, first);
      assert m - {first} - {k} == m - {k} - {first};
    }
  }

  lemma TotalSet<K, V>(m: map<K, V>, weight: V -> nat, k: K, v: V)
    requires k in m
    ensures Total(m[k := v], weight) + weight(m[k]) == Total(m, weight) + weight(v)
  {
    TotalAt(m, weight, k);
    TotalAt(m[k := v], weight, k);
    assert m[k := v] - {k} == m - {k};
  }

  lemma {:induction false} TotalRaised<K, V>(m: map<K, V>, n: map<K, V>, weight: V -> nat, c: nat)
    requires m.Keys == n.Keys && forall k :: k in m ==> weight(n[k]) <= weight(m[k]) + c
    ensures Total(n, weight) <= Total(m, weight) + Times(c, |m|)
    decreases |m|
  {
    if m == map[] {
      assert n == map[];
    } else {
      hide Times;
      var k :| k in m;
      TotalAt(m, weight, k);
      TotalAt(n, weight, k);
      TotalRaised(m - {k}, n - {k}, weight, c);
      assert |m| == |m - {k}| + 1 by { assert m == (m - {k})[k := m[k]]; }
      TimesNext(c, |m - {k}|);
    }
  }

  // ---- the moves of copies ----

  ghost predicate Fits(cfg: Config, p: Places) {
    p.edge.Keys == cfg.edges && p.router.Keys == cfg.routers && p.agent.Keys == cfg.agents
  }

  ghost predicate BoxesRaised(p: map<Edge, EdgeCount>, q: map<Edge, EdgeCount>) {
    && p.Keys == q.Keys
    && (forall f :: f in p ==> q[f].box <= p[f].box + 1 && q[f] == p[f].(box := q[f].box))
  }

  /** A copy is written to the link, or dropped. */
  ghost predicate Written(p: Places, q: Places, e: Edge) {
    && e in p.edge && e in q.edge && q == p.(edge := p.edge[e := q.edge[e]])
    && q.edge[e].queue + 1 == p.edge[e].queue && q.edge[e].up <= p.edge[e].up + 1
    && q.edge[e].box == p.edge[e].box && q.edge[e].down == p.edge[e].down
  }

  /** A copy is taken from the link, to be published and queued for other edge routers. */
  ghost predicate Passed(p: Places, q: Places, e: Edge, r: Router) {
    && e in p.edge && r in p.router && r in q.router && q.agent == p.agent
    && p.edge[e].up > 0 && BoxesRaised(p.edge[e := p.edge[e].(up := p.edge[e].up - 1)], q.edge)
    && q.router == p.router[r := q.router[r]]
    && q.router[r] == p.router[r].(out := q.router[r].out) && q.router[r].out <= p.router[r].out + 1
  }

  /** `x` copies go down in a response. */
  ghost predicate Collected(p: Places, q: Places, e: Edge, x: nat) {
    && e in p.edge && e in q.edge && q == p.(edge := p.edge[e := q.edge[e]])
    && q.edge[e].queue == p.edge[e].queue && q.edge[e].up == p.edge[e].up
    && q.edge[e].box + x <= p.edge[e].box && q.edge[e].down == p.edge[e].down + x
  }

  /** `x` copies are taken from the link, and each agent gets at most as many. */
  ghost predicate Unpacked(p: Places, q: Places, e: Edge, x: nat) {
    && e in p.edge && p.edge[e].down >= x && q.router == p.router
    && q.edge == p.edge[e := p.edge[e].(down := p.edge[e].down - x)]
    && q.agent.Keys == p.agent.Keys && (forall a :: a in p.agent ==> q.agent[a] <= p.agent[a] + x)
    && (x == 0 ==> q.agent == p.agent)
  }

  ghost predicate PubsRaised(p: map<Router, RouterCount>, q: map<Router, RouterCount>) {
    && p.Keys == q.Keys
    && (forall r :: r in p ==> q[r].pub <= p[r].pub + 1 && q[r] == p[r].(pub := q[r].pub))
  }

  ghost predicate MovedOut(p: Places, q: Places, r: Router) {
    && r in p.router && p.router[r].out > 0 && q.edge == p.edge && q.agent == p.agent
    && PubsRaised(p.router[r := p.router[r].(out := p.router[r].out - 1)], q.router)
  }

  ghost predicate Heeded(p: Places, q: Places, r: Router) {
    && r in p.router && r in q.router && q == p.(router := p.router[r := q.router[r]])
    && q.router[r].out == p.router[r].out && q.router[r].pub + 1 == p.router[r].pub
    && q.router[r].inbox <= p.router[r].inbox + 1
  }

  ghost predicate Spread(p: Places, q: Places, r: Router) {
    && r in p.router && p.router[r].inbox > 0 && q.agent == p.agent && BoxesRaised(p.edge, q.edge)
    && q.router == p.router[r := p.router[r].(inbox := p.router[r].inbox - 1)]
  }

  /** Copies leave the mailbox of an agent. */
  ghost predicate Taken(p: Places, q: Places, a: Agent) {
    && a in p.agent && a in q.agent && q == p.(agent := p.agent[a := q.agent[a]])
    && q.agent[a] <= p.agent[a]
  }

  // ---- each move lowers the measure ----

  lemma WrittenLower(w: Weights, p: Places, q: Places, e: Edge)
    requires Written(p, q, e) && w.queue > w.up
    ensures Measure(w, q) < Measure(w, p)
  {
    hide Times, Total;
    var c, d := p.edge[e], q.edge[e];
    TotalSet(p.edge, EdgeWeight(w), e, d);
    TimesNext(w.queue, d.queue);
    TimesGrows(w.up, w.up, d.up, c.up + 1);
    TimesNext(w.up, c.up);
  }

  lemma RaisedTotal(w: Weights, p: map<Edge, EdgeCount>, q: map<Edge, EdgeCount>)
    requires BoxesRaised(p, q)
    ensures Total(q, EdgeWeight(w)) <= Total(p, EdgeWeight(w)) + Times(w.box, |p|)
  {
    hide Times, Total;
    forall f | f in p ensures EdgeWeight(w)(q[f]) <= EdgeWeight(w)(p[f]) + w.box {
      TimesGrows(w.box, w.box, q[f].box, p[f].box + 1);
      TimesNext(w.box, p[f].box);
    }
    TotalRaised(p, q, EdgeWeight(w), w.box);
  }

  lemma PassedLower(w: Weights, p: Places, q: Places, e: Edge, r: Router)
    requires Passed(p, q, e, r) && w.up > w.out + Times(w.box, |p.edge|)
    ensures Measure(w, q) < Measure(w, p)
  {
    hide Times, Total, BoxesRaised;
    var c := p.edge[e];
    var mid := p.edge[e := c.(up := c.up - 1)];
    TotalSet(p.edge, EdgeWeight(w), e, c.(up := c.up - 1));
    TimesNext(w.up, c.up - 1);
    SameSize(mid, p.edge);
    RaisedTotal(w, mid, q.edge);
    TotalSet(p.router, RouterWeight(w), r, q.router[r]);
    TimesGrows(w.out, w.out, q.router[r].out, p.router[r].out + 1);
    TimesNext(w.out, p.router[r].out);
  }

  lemma SameSize<K, V>(m: map<K, V>, n: map<K, V>)
    requires m.Keys == n.Keys
    ensures |m| == |n|
  {
    assert |m| == |m.Keys| && |n| == |n.Keys|;
  }

  lemma CollectedLower(w: Weights, p: Places, q: Places, e: Edge, x: nat)
    requires Collected(p, q, e, x) && w.box > w.down
    ensures q == p || Measure(w, q) < Measure(w, p)
  {
    hide Times, Total;
    var c, d := p.edge[e], q.edge[e];
    var gone := c.box - d.box;
    TotalSet(p.edge, EdgeWeight(w), e, d);
    TimesSum(w.box, d.box, gone);
    TimesSum(w.down, c.down, x);
    TimesGrows(w.down, w.down, x, gone);
    if gone == 0 {
      assert p.edge[e := c] == p.edge;
    } else {
      TimesLess(w.down, w.box, gone);
    }
  }

  lemma UnpackedLower(w: Weights, p: Places, q: Places, e: Edge, x: nat)
    requires Unpacked(p, q, e, x) && w.down > |p.agent|
    ensures q == p || Measure(w, q) < Measure(w, p)
  {
    hide Times, Total, EdgeWeight;
    var c := p.edge[e];
    if x == 0 {
      assert p.edge[e := c.(down := c.down - 0)] == p.edge;
    } else {
      TotalSet(p.edge, EdgeWeight(w), e, c.(down := c.down - x));
      PoppedWeight(w, c, x);
      TotalRaised(p.agent, q.agent, AgentWeight(), x);
      TimesLess(|p.agent|, w.down, x);
      TimesSwap(x, |p.agent|);
    }
  }

  lemma PoppedWeight(w: Weights, c: EdgeCount, x: nat)
    requires x <= c.down
    ensures EdgeWeight(w)(c) == EdgeWeight(w)(c.(down := c.down - x)) + Times(w.down, x)
  {
    hide Times;
    TimesSum(w.down, c.down - x, x);
  }

  lemma TimesSwap(m: nat, n: nat)
    ensures Times(m, n) == Times(n, m)
  {
  }

  lemma MovedOutLower(w: Weights, p: Places, q: Places, r: Router)
    requires MovedOut(p, q, r) && w.out > Times(w.pub, |p.router|)
    ensures Measure(w, q) < Measure(w, p)
  {
    hide Times, Total;
    var c := p.router[r];
    var mid := p.router[r := c.(out := c.out - 1)];
    TotalSet(p.router, RouterWeight(w), r, c.(out := c.out - 1));
    TimesNext(w.out, c.out - 1);
    SameSize(mid, p.router);
    forall f | f in mid ensures RouterWeight(w)(q.router[f]) <= RouterWeight(w)(mid[f]) + w.pub {
      TimesGrows(w.pub, w.pub, q.router[f].pub, mid[f].pub + 1);
      TimesNext(w.pub, mid[f].pub);
    }
    TotalRaised(mid, q.router, RouterWeight(w), w.pub);
  }

  lemma HeededLower(w: Weights, p: Places, q: Places, r: Router)
    requires Heeded(p, q, r) && w.pub > w.inbox
    ensures Measure(w, q) < Measure(w, p)
  {
    hide Times, Total;
    var c, d := p.router[r], q.router[r];
    TotalSet(p.router, RouterWeight(w), r, d);
    TimesNext(w.pub, d.pub);
    TimesGrows(w.inbox, w.inbox, d.inbox, c.inbox + 1);
    TimesNext(w.inbox, c.inbox);
  }

  lemma SpreadLower(w: Weights, p: Places, q: Places, r: Router)
    requires Spread(p, q, r) && w.inbox > Times(w.box, |p.edge|)
    ensures Measure(w, q) < Measure(w, p)
  {
    hide Times, Total, BoxesRaised;
    var c := p.router[r];
    TotalSet(p.router, RouterWeight(w), r, c.(inbox := c.inbox - 1));
    TimesNext(w.inbox, c.inbox - 1);
    RaisedTotal(w, p.edge, q.edge);
  }

  lemma TakenLower(w: Weights, p: Places, q: Places, a: Agent)
    requires Taken(p, q, a)
    ensures q == p || Measure(w, q) < Measure(w, p)
  {
    hide Total;
    TotalSet(p.agent, AgentWeight(), a, q.agent[a]);
    if q.agent[a] == p.agent[a] {
      assert p.agent[a := p.agent[a]] == p.agent;
    }
  }
}
