/**
 * The scheduler as a whole: the table of known messages (`Belly`), each with its status toward every
 * neighbour, beside the queues of all neighbours (daemon/priority_flood.c).
 */
module PrioritySched {
  import opened PriorityQueues
  import opened PriorityLinks

  /** `Unset` is a status not written yet. */
  datatype Flag = Unset | Need | Received | OnLink | Dropped | Expired | NotInMask

  /** `ns` is released when no neighbour needs the message any more. */
  datatype Entry = Entry(msg: Msg, need: nat, ns: seq<Flag>)

  datatype Key = Key(src: nat, inc: nat, no: nat)

  function KeyOf(m: Msg): Key { Key(m.src, m.inc, m.no) }

  predicate Pending(f: Flag) { f == Unset || f == Need }

  /** How many neighbours may still need the message. */
  function Open(ns: seq<Flag>): nat {
    if ns == [] then 0 else Open(ns[..|ns| - 1]) + if Pending(ns[|ns| - 1]) then 1 else 0
  }

  predicate EntryOk(e: Entry, k: Key, d: nat, n: nat) {
    && KeyOf(e.msg) == k && Proper(e.msg, n)
    && if e.need == 0 then e.ns == [] else |e.ns| == d && e.need == Open(e.ns)
  }

  predicate EntriesOk(belly: map<Key, Entry>, d: nat, n: nat) {
    forall k :: k in belly ==> EntryOk(belly[k], k, d, n)
  }

  predicate LinksOk(links: seq<Link>, n: nat) { forall i :: 0 <= i < |links| ==> LinkOk(links[i], n) }

  /** The status of `m` toward neighbour `i`, if `m` is known and still needed by someone. */
  predicate Has(belly: map<Key, Entry>, m: Msg, i: nat, f: Flag) {
    KeyOf(m) in belly && belly[KeyOf(m)].msg == m && i < |belly[KeyOf(m)].ns| && belly[KeyOf(m)].ns[i] == f
  }

  /** A message is in the queue of a neighbour exactly while its status there says so. */
  ghost predicate Agree(links: seq<Link>, belly: map<Key, Entry>) {
    forall i, m :: 0 <= i < |links| ==> (Holds(links[i], m) <==> Has(belly, m, i, Need))
  }

  ghost predicate SchedOk(links: seq<Link>, belly: map<Key, Entry>, n: nat) {
    LinksOk(links, n) && EntriesOk(belly, |links|, n) && Agree(links, belly)
  }

  // ----- The count of open neighbours -----

  lemma {:induction false} OpenUpdate(ns: seq<Flag>, i: nat, f: Flag)
    requires i < |ns|
    ensures Open(ns[i := f]) + (if Pending(ns[i]) then 1 else 0) == Open(ns) + if Pending(f) then 1 else 0
  {
    var front := ns[..|ns| - 1];
    if i == |ns| - 1 {
      assert ns[i := f][..|ns| - 1] == front;
    } else {
      OpenUpdate(front, i, f);
      assert ns[i := f][..|ns| - 1] == front[i := f];
    }
  }

  lemma {:induction false} OpenAll(d: nat)
    ensures Open(seq(d, _ => Unset)) == d
  {
    if d > 0 {
      var ns := seq(d, _ => Unset);
      OpenAll(d - 1);
      assert ns[..d - 1] == seq(d - 1, _ => Unset);
    }
  }

  lemma {:induction false} OpenZero(ns: seq<Flag>, i: nat)
    requires Open(ns) == 0 && i < |ns|
    ensures !Pending(ns[i])
  {
    if i < |ns| - 1 {
      OpenZero(ns[..|ns| - 1], i);
    }
  }

  // ----- Changes of status -----

  /** Neighbour `i` no longer needs the message. */
  function Settle(e: Entry, i: nat, f: Flag): Entry
    requires i < |e.ns| && e.need > 0
  {
    Entry(e.msg, e.need - 1, if e.need == 1 then [] else e.ns[i := f])
  }

  lemma SettleEntry(e: Entry, k: Key, d: nat, n: nat, i: nat, f: Flag)
    requires EntryOk(e, k, d, n) && i < |e.ns| && Pending(e.ns[i]) && !Pending(f)
    ensures e.need > 0 && EntryOk(Settle(e, i, f), k, d, n)
    ensures forall j, g :: 0 <= j < |Settle(e, i, f).ns| && Pending(g) ==>
              (Settle(e, i, f).ns[j] == g <==> j != i && e.ns[j] == g)
    ensures forall j :: 0 <= j < d && j != i && Pending(e.ns[j]) ==> Settle(e, i, f).need > 0
  {
    OpenUpdate(e.ns, i, f);
    if e.need == 1 {
      forall j | 0 <= j < d && j != i ensures !Pending(e.ns[j]) {
        OpenZero(e.ns[i := f], j);
      }
    }
  }

  lemma SettleHas(belly: map<Key, Entry>, d: nat, n: nat, k: Key, i: nat, f: Flag)
    requires EntriesOk(belly, d, n) && k in belly && i < |belly[k].ns| && Pending(belly[k].ns[i]) && !Pending(f)
    ensures belly[k].need > 0 && EntriesOk(belly[k := Settle(belly[k], i, f)], d, n)
    ensures forall m, j, g :: Pending(g) ==>
              (Has(belly[k := Settle(belly[k], i, f)], m, j, g) <==> Has(belly, m, j, g) && !(KeyOf(m) == k && j == i))
  {
    var e := belly[k];
    assert EntryOk(e, k, d, n);
    SettleEntry(e, k, d, n, i, f);
    var belly' := belly[k := Settle(e, i, f)];
    forall m, j: nat, g | Pending(g)
      ensures Has(belly', m, j, g) <==> Has(belly, m, j, g) && !(KeyOf(m) == k && j == i)
    {
      if KeyOf(m) == k && Has(belly, m, j, g) && j != i {
        assert Settle(e, i, f).need > 0;
      }
    }
  }

  /** A neighbour that never needed the message. */
  lemma SettleUnset(links: seq<Link>, belly: map<Key, Entry>, n: nat, k: Key, i: nat, f: Flag)
    requires SchedOk(links, belly, n) && k in belly && i < |belly[k].ns| && belly[k].ns[i] == Unset && !Pending(f)
    ensures belly[k].need > 0 && SchedOk(links, belly[k := Settle(belly[k], i, f)], n)
  {
    SettleHas(belly, |links|, n, k, i, f);
    var belly' := belly[k := Settle(belly[k], i, f)];
    forall j, m | 0 <= j < |links| ensures Holds(links[j], m) <==> Has(belly', m, j, Need) {
      assert Has(belly, belly[k].msg, i, Unset);
    }
  }

  /** One message joins or leaves one queue, and its status follows. */
  lemma AgreeAfter(links: seq<Link>, belly: map<Key, Entry>, i: nat, l: Link, belly': map<Key, Entry>, m: Msg,
                   add: bool)
    requires Agree(links, belly) && i < |links|
    requires forall x :: Holds(l, x) <==> if x == m then add else Holds(links[i], x)
    requires forall x, j: nat :: Has(belly', x, j, Need) <==> if x == m && j == i then add else Has(belly, x, j, Need)
    ensures Agree(links[i := l], belly')
  {
    var links' := links[i := l];
    forall j, x | 0 <= j < |links'| ensures Holds(links'[j], x) <==> Has(belly', x, j, Need) {
      assert Holds(links[j], x) <==> Has(belly, x, j, Need);
    }
  }

  lemma LinksUpdate(links: seq<Link>, n: nat, i: nat, l: Link)
    requires LinksOk(links, n) && i < |links| && LinkOk(l, n)
    ensures LinksOk(links[i := l], n)
  {
  }

  lemma NeededIsHeld(links: seq<Link>, belly: map<Key, Entry>, n: nat, k: Key, i: nat)
    requires SchedOk(links, belly, n) && k in belly && i < |belly[k].ns| && belly[k].ns[i] == Need
    ensures i < |links| && LinkOk(links[i], n) && Holds(links[i], belly[k].msg) && EntryOk(belly[k], k, |links|, n)
    ensures var m := belly[k].msg; m.src < |links[i].srcs| && |links[i].srcs[m.src].lists| == MAX_PRIORITY + 1
    ensures var m := belly[k].msg; m.packets <= links[i].srcs[m.src].count <= links[i].total
  {
    var m := belly[k].msg;
    assert EntryOk(belly[k], k, |links|, n);
    assert Has(belly, m, i, Need) && Holds(links[i], m) && LinkOk(links[i], n);
    CountsCover(links[i], n, m);
    assert QueueOk(links[i].srcs[m.src], m.src);
  }

  /** A neighbour that needed it: the message leaves its queue. */
  lemma SettleNeed(links: seq<Link>, belly: map<Key, Entry>, n: nat, k: Key, i: nat, f: Flag)
    requires SchedOk(links, belly, n) && k in belly && i < |belly[k].ns| && belly[k].ns[i] == Need && !Pending(f)
    ensures i < |links| && belly[k].need > 0 && Holds(links[i], belly[k].msg)
    ensures var m := belly[k].msg; m.src < |links[i].srcs| && |links[i].srcs[m.src].lists| == MAX_PRIORITY + 1
    ensures var m := belly[k].msg; m.packets <= links[i].srcs[m.src].count <= links[i].total
    ensures SchedOk(links[i := DropLink(links[i], belly[k].msg)], belly[k := Settle(belly[k], i, f)], n)
  {
    var m := belly[k].msg;
    NeededIsHeld(links, belly, n, k, i);
    DropLinkOk(links[i], n, m);
    LinksUpdate(links, n, i, DropLink(links[i], m));
    SettleHas(belly, |links|, n, k, i, f);
    AgreeAfter(links, belly, i, DropLink(links[i], m), belly[k := Settle(belly[k], i, f)], m, false);
  }

  lemma NeedEntry(belly: map<Key, Entry>, d: nat, n: nat, k: Key, i: nat)
    requires EntriesOk(belly, d, n) && k in belly && i < |belly[k].ns| && belly[k].ns[i] == Unset
    ensures EntriesOk(belly[k := belly[k].(ns := belly[k].ns[i := Need])], d, n)
    ensures forall x, j: nat :: Has(belly[k := belly[k].(ns := belly[k].ns[i := Need])], x, j, Need) <==>
              if x == belly[k].msg && j == i then true else Has(belly, x, j, Need)
  {
    var e := belly[k];
    assert EntryOk(e, k, d, n);
    OpenUpdate(e.ns, i, Need);
    var e' := e.(ns := e.ns[i := Need]);
    var belly' := belly[k := e'];
    forall x, j: nat
      ensures Has(belly', x, j, Need) <==> if x == e.msg && j == i then true else Has(belly, x, j, Need)
    {
      if KeyOf(x) == k {
        assert belly'[k] == e';
        assert j < |e.ns| && j != i ==> e'.ns[j] == e.ns[j];
      } else {
        assert KeyOf(x) in belly' ==> belly'[KeyOf(x)] == belly[KeyOf(x)];
      }
    }
  }

  /** A neighbour that needs it: the message joins its queue. */
  lemma QueueUnset(links: seq<Link>, belly: map<Key, Entry>, n: nat, k: Key, i: nat)
    requires SchedOk(links, belly, n) && k in belly && i < |belly[k].ns| && belly[k].ns[i] == Unset
    ensures i < |links| && belly[k].msg.src < |links[i].srcs|
    ensures belly[k].msg.priority < |links[i].srcs[belly[k].msg.src].lists|
    ensures SchedOk(links[i := PutLink(links[i], belly[k].msg)], belly[k := belly[k].(ns := belly[k].ns[i := Need])], n)
  {
    var m := belly[k].msg;
    assert EntryOk(belly[k], k, |links|, n) && LinkOk(links[i], n);
    assert !Holds(links[i], m) by {
      assert !Has(belly, m, i, Need);
    }
    assert QueueOk(links[i].srcs[m.src], m.src);
    PutLinkOk(links[i], n, m);
    LinksUpdate(links, n, i, PutLink(links[i], m));
    NeedEntry(belly, |links|, n, k, i);
    AgreeAfter(links, belly, i, PutLink(links[i], m), belly[k := belly[k].(ns := belly[k].ns[i := Need])], m, true);
  }

  lemma InsertOk(links: seq<Link>, belly: map<Key, Entry>, n: nat, m: Msg)
    requires SchedOk(links, belly, n) && KeyOf(m) !in belly && Proper(m, n)
    ensures SchedOk(links, belly[KeyOf(m) := Entry(m, |links|, seq(|links|, _ => Unset))], n)
  {
    OpenAll(|links|);
    var belly' := belly[KeyOf(m) := Entry(m, |links|, seq(|links|, _ => Unset))];
    forall j, x | 0 <= j < |links| ensures Holds(links[j], x) <==> Has(belly', x, j, Need) {
      assert Holds(links[j], x) <==> Has(belly, x, j, Need);
    }
  }

  /** Erasing a message that no neighbour needs leaves no queue with a dangling reference. */
  lemma EraseOk(links: seq<Link>, belly: map<Key, Entry>, n: nat, k: Key)
    requires SchedOk(links, belly, n) && k in belly && belly[k].need == 0
    ensures SchedOk(links, belly - {k}, n)
  {
    assert EntryOk(belly[k], k, |links|, n);
    forall j, x | 0 <= j < |links| ensures Holds(links[j], x) <==> Has(belly - {k}, x, j, Need) {
      assert Holds(links[j], x) <==> Has(belly, x, j, Need);
    }
  }

  // ----- The log of a run -----

  datatype Pass = Pass(ngbr: nat, msg: Msg)

  /** The messages accepted as new and the node each came from, and who was sent or sent us which, in order. */
  datatype Log = Log(accepted: map<Msg, nat>, sent: seq<Pass>, heard: seq<Pass>)

  /** Nothing was passed on twice. */
  predicate OnceEach(passes: seq<Pass>) { forall i, j :: 0 <= i < j < |passes| ==> passes[i] != passes[j] }

  /** Neighbour `i` is neither the last hop nor the source, and lies on the message's paths. */
  predicate Eligible(m: Msg, i: nat, hop: nat, nbrs: seq<nat>) {
    i < |nbrs| && nbrs[i] != hop && nbrs[i] != m.src && i < |m.mask| && m.mask[i] && !m.local
  }

  predicate Known(belly: map<Key, Entry>, m: Msg) { KeyOf(m) in belly && belly[KeyOf(m)].msg == m }

  predicate Remembered(belly: map<Key, Entry>, accepted: map<Msg, nat>, now: nat) {
    && (forall m :: m in accepted ==> Known(belly, m) || m.expire <= now)
    && (forall k :: k in belly ==> belly[k].msg in accepted)
  }

  predicate Over(belly: map<Key, Entry>, accepted: map<Msg, nat>, passes: seq<Pass>) {
    forall x :: x in passes ==>
      x.msg in accepted && !Has(belly, x.msg, x.ngbr, Need) && !Has(belly, x.msg, x.ngbr, Unset)
  }

  ghost predicate Due(belly: map<Key, Entry>, accepted: map<Msg, nat>, nbrs: seq<nat>) {
    forall m, i: nat :: Has(belly, m, i, Need) && m in accepted ==> Eligible(m, i, accepted[m], nbrs)
  }

  predicate Rightly(accepted: map<Msg, nat>, sent: seq<Pass>, nbrs: seq<nat>) {
    forall x :: x in sent && x.msg in accepted ==> Eligible(x.msg, x.ngbr, accepted[x.msg], nbrs)
  }

  ghost predicate LogOk(belly: map<Key, Entry>, log: Log, nbrs: seq<nat>, now: nat) {
    && Remembered(belly, log.accepted, now)
    && Over(belly, log.accepted, log.sent) && Over(belly, log.accepted, log.heard)
    && Due(belly, log.accepted, nbrs) && Rightly(log.accepted, log.sent, nbrs) && OnceEach(log.sent)
  }

  /** Messages stay and nothing becomes needed. */
  ghost predicate Lessens(belly: map<Key, Entry>, belly': map<Key, Entry>) {
    && belly'.Keys == belly.Keys && (forall k :: k in belly ==> belly'[k].msg == belly[k].msg)
    && (forall m, j: nat :: Has(belly', m, j, Need) ==> Has(belly, m, j, Need))
    && (forall m, j: nat :: Has(belly', m, j, Unset) ==> Has(belly, m, j, Unset))
  }

  /** A released status list stays released; until then only needed statuses change. */
  ghost predicate Lasting(belly: map<Key, Entry>, belly': map<Key, Entry>) {
    && (forall k :: k in belly && k in belly' && belly[k].ns == [] ==> belly'[k].ns == [])
    && (forall m, j: nat, f ::
          f != Need && Has(belly, m, j, f) && KeyOf(m) in belly' && belly'[KeyOf(m)].ns != [] ==> Has(belly', m, j, f))
  }

  /** A status may only go from needed to settled. */
  ghost predicate Steady(belly: map<Key, Entry>, belly': map<Key, Entry>) {
    && Lessens(belly, belly') && Lasting(belly, belly')
    && forall m, j: nat :: Has(belly, m, j, Unset) ==> Has(belly', m, j, Unset)
  }

  lemma LesserLog(belly: map<Key, Entry>, belly': map<Key, Entry>, log: Log, nbrs: seq<nat>, now: nat)
    requires LogOk(belly, log, nbrs, now) && Lessens(belly, belly')
    ensures LogOk(belly', log, nbrs, now)
  {
    forall m | m in log.accepted ensures Known(belly', m) || m.expire <= now {
      assert Known(belly, m) || m.expire <= now;
    }
  }

  lemma LaterLog(belly: map<Key, Entry>, log: Log, nbrs: seq<nat>, now: nat, later: nat)
    requires LogOk(belly, log, nbrs, now) && now <= later
    ensures LogOk(belly, log, nbrs, later)
  {
  }

  lemma SettleSteady(belly: map<Key, Entry>, d: nat, n: nat, k: Key, i: nat, f: Flag)
    requires EntriesOk(belly, d, n) && k in belly && i < |belly[k].ns| && belly[k].ns[i] == Need && !Pending(f)
    ensures belly[k].need > 0 && Steady(belly, belly[k := Settle(belly[k], i, f)])
    ensures !Has(belly[k := Settle(belly[k], i, f)], belly[k].msg, i, Need)
    ensures !Has(belly[k := Settle(belly[k], i, f)], belly[k].msg, i, Unset)
  {
    SettleHas(belly, d, n, k, i, f);
    SettleLasts(belly, k, i, f);
  }

  lemma SettleLasts(belly: map<Key, Entry>, k: Key, i: nat, f: Flag)
    requires k in belly && belly[k].need > 0 && i < |belly[k].ns| && belly[k].ns[i] == Need
    ensures Lasting(belly, belly[k := Settle(belly[k], i, f)])
  {
  }

  /** A message sent, which had not been sent to this neighbour before. */
  lemma SentLog(belly: map<Key, Entry>, belly': map<Key, Entry>, log: Log, nbrs: seq<nat>, now: nat, m: Msg, i: nat)
    requires LogOk(belly, log, nbrs, now) && Steady(belly, belly') && Has(belly, m, i, Need)
    requires !Has(belly', m, i, Need) && !Has(belly', m, i, Unset)
    ensures Pass(i, m) !in log.sent && Pass(i, m) !in log.heard
    ensures LogOk(belly', log.(sent := log.sent + [Pass(i, m)]), nbrs, now)
  {
    LesserLog(belly, belly', log, nbrs, now);
    assert belly[KeyOf(m)].msg in log.accepted;
  }

  /** A new message: it was never accepted before, since only expired ones are forgotten. */
  lemma AcceptLog(belly: map<Key, Entry>, log: Log, nbrs: seq<nat>, now: nat, m: Msg, hop: nat)
    requires LogOk(belly, log, nbrs, now) && KeyOf(m) !in belly && m.expire > now
    ensures m !in log.accepted
    ensures LogOk(belly[KeyOf(m) := Entry(m, |nbrs|, seq(|nbrs|, _ => Unset))],
                  log.(accepted := log.accepted[m := hop]), nbrs, now)
  {
    var belly' := belly[KeyOf(m) := Entry(m, |nbrs|, seq(|nbrs|, _ => Unset))];
    var accepted := log.accepted[m := hop];
    forall x | x in accepted ensures Known(belly', x) || x.expire <= now {
      assert x != m ==> Known(belly, x) || x.expire <= now;
    }
    forall x, i: nat | Has(belly', x, i, Need) ensures Has(belly, x, i, Need) {
    }
    forall x | x in log.sent + log.heard
      ensures x.msg != m && !Has(belly', x.msg, x.ngbr, Need) && !Has(belly', x.msg, x.ngbr, Unset)
    {
      assert x.msg in log.accepted;
    }
  }

  /** A copy heard from a neighbour that is settled. */
  lemma HeardLog(belly: map<Key, Entry>, log: Log, nbrs: seq<nat>, now: nat, m: Msg, i: nat)
    requires LogOk(belly, log, nbrs, now) && Known(belly, m) && !Has(belly, m, i, Need) && !Has(belly, m, i, Unset)
    ensures LogOk(belly, log.(heard := log.heard + [Pass(i, m)]), nbrs, now)
  {
    assert belly[KeyOf(m)].msg in log.accepted;
  }

  lemma SettleLessens(belly: map<Key, Entry>, d: nat, n: nat, k: Key, i: nat, f: Flag)
    requires EntriesOk(belly, d, n) && k in belly && i < |belly[k].ns| && belly[k].ns[i] == Unset && !Pending(f)
    ensures belly[k].need > 0 && Lessens(belly, belly[k := Settle(belly[k], i, f)])
  {
    SettleHas(belly, d, n, k, i, f);
  }

  lemma NeedLog(belly: map<Key, Entry>, log: Log, d: nat, n: nat, nbrs: seq<nat>, now: nat, k: Key, i: nat)
    requires LogOk(belly, log, nbrs, now) && EntriesOk(belly, d, n) && k in belly && i < |belly[k].ns|
    requires belly[k].ns[i] == Unset
    requires belly[k].msg in log.accepted && Eligible(belly[k].msg, i, log.accepted[belly[k].msg], nbrs)
    ensures LogOk(belly[k := belly[k].(ns := belly[k].ns[i := Need])], log, nbrs, now)
  {
    var m := belly[k].msg;
    var belly' := belly[k := belly[k].(ns := belly[k].ns[i := Need])];
    NeedEntry(belly, d, n, k, i);
    assert EntryOk(belly[k], k, d, n);
    forall x | x in log.accepted ensures Known(belly', x) || x.expire <= now {
      assert Known(belly, x) || x.expire <= now;
    }
    assert Has(belly, m, i, Unset);
    forall x, j: nat | Has(belly', x, j, Unset) ensures Has(belly, x, j, Unset) {
      assert KeyOf(x) == k ==> x == m;
    }
  }

  lemma EraseLog(belly: map<Key, Entry>, log: Log, nbrs: seq<nat>, now: nat, k: Key)
    requires LogOk(belly, log, nbrs, now) && k in belly && belly[k].msg.expire <= now
    ensures LogOk(belly - {k}, log, nbrs, now)
  {
    var belly' := belly - {k};
    forall m | m in log.accepted ensures Known(belly', m) || m.expire <= now {
      assert Known(belly, m) || m.expire <= now;
    }
    forall m, j: nat, f | Has(belly', m, j, f) ensures Has(belly, m, j, f) {
    }
  }

  lemma {:induction false} OpenNone(ns: seq<Flag>)
    requires forall i :: 0 <= i < |ns| ==> !Pending(ns[i])
    ensures Open(ns) == 0
  {
    if ns != [] {
      OpenNone(ns[..|ns| - 1]);
    }
  }

  /** No status is unwritten: the state between two operations. */
  ghost predicate AllSet(belly: map<Key, Entry>) { forall m, i: nat :: !Has(belly, m, i, Unset) }

  lemma NobodyNeeds(belly: map<Key, Entry>, d: nat, n: nat, k: Key)
    requires EntriesOk(belly, d, n) && AllSet(belly) && k in belly
    requires forall i: nat :: i < d ==> !Has(belly, belly[k].msg, i, Need)
    ensures belly[k].need == 0
  {
    var e := belly[k];
    assert EntryOk(e, k, d, n);
    forall i | 0 <= i < |e.ns| ensures !Pending(e.ns[i]) {
      assert !Has(belly, e.msg, i, Need) && !Has(belly, e.msg, i, Unset);
    }
    OpenNone(e.ns);
  }
}
