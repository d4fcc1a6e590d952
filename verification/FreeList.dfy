/** The lock-free free list of blocks: `add`, `try_get` and `add_knowing_refcount_is_zero`.

    Each node carries a 32-bit word holding a reference count and, in its top bit, the
    should-be-on-free-list flag.  A thread in `try_get` counts itself into the head node before
    it reads the node's next pointer; a thread that returns a node to the list either finds
    nobody else counted in and links it itself, or sets the flag and leaves the linking to
    whoever counts itself out last.  Each access to shared memory is one step, and any number of
    threads interleave freely.

    `list`, `role`, `added` and `got` are history: the nodes in list order, what each node is
    currently for, and how often it was put in and handed out. */
module FreeList {
  import opened Options

  type Tid = nat
  type Node = nat

  /** SHOULD_BE_ON_FREELIST; the count is the remainder below it. */
  const FLAG: nat := 0x8000_0000

  /** What a thread does after linking a node: `add` returns, `try_get` goes on with the head
      its failed exchange has seen. */
  datatype Resume = Return | GetWith(head: Option<Node>)

  datatype Pc =
    | Idle
    | SetFlag(node: Node)
    | LoadHead(node: Node, resume: Resume)
    | StoreNext(node: Node, head: Option<Node>, resume: Resume)
    | StoreRefs(node: Node, head: Option<Node>, resume: Resume)
    | SwingHead(node: Node, head: Option<Node>, resume: Resume)
    | GiveBack(node: Node, head: Option<Node>, resume: Resume)
    | GetHead
    | GetRefs(node: Node)
    | CountIn(node: Node, refs: nat)
    | ReadNext(node: Node)
    | TakeHead(node: Node, next: Option<Node>)
    | DropTwo(node: Node)
    | CountOut(node: Node, head: Option<Node>)

  /** What a node is for: held by a caller; about to be flagged by t; on the list; taken off by t;
      being linked by t, with its word already reset to one or not yet; or flagged and left to
      whoever still counts. */
  datatype Role =
    | Owned
    | Entering(who: Tid)
    | Listed
    | Taken(who: Tid)
    | Adding(who: Tid, published: bool)
    | Flagged

  datatype State = State(
    head: Option<Node>, refs: map<Node, nat>, next: map<Node, Option<Node>>, threads: map<Tid, Pc>,
    list: seq<Node>, role: map<Node, Role>, added: map<Node, nat>, got: map<Node, nat>)

  function Init(nodes: set<Node>, threads: set<Tid>): State {
    State(None, map n | n in nodes :: 0, map n | n in nodes :: None, map t | t in threads :: Idle,
          [], map n | n in nodes :: Owned, map n | n in nodes :: 0, map n | n in nodes :: 0)
  }

  datatype Action =
    | Add(tid: Tid, node: Node)
    | TryGet(tid: Tid)
    | Advance(tid: Tid)

  predicate HasNode(s: State, n: Node) {
    n in s.refs && n in s.next && n in s.role && n in s.added && n in s.got
  }

  /** A caller may add a node that it holds; a thread inside a call may take its next step. */
  predicate Enabled(s: State, a: Action) {
    match a
    case Add(t, n) => t in s.threads && s.threads[t].Idle? && HasNode(s, n) && s.role[n].Owned?
    case TryGet(t) => t in s.threads && s.threads[t].Idle?
    case Advance(t) =>
      && t in s.threads && !s.threads[t].Idle?
      && (s.threads[t].GetHead? || HasNode(s, s.threads[t].node))
      && (s.threads[t].DropTwo? ==> s.refs[s.threads[t].node] >= 2)
      && (s.threads[t].CountOut? ==> s.refs[s.threads[t].node] >= 1)
      && (s.threads[t].TakeHead? && s.head == Some(s.threads[t].node) ==> s.list != [])
  }

  /** The loop head of `try_get`: out with nothing, or on to the node's count. */
  function WithHead(head: Option<Node>): Pc {
    match head
    case None => Idle
    case Some(n) => GetRefs(n)
  }

  function Resumed(resume: Resume): Pc {
    match resume
    case Return => Idle
    case GetWith(head) => WithHead(head)
  }

  function Advanced(s: State, t: Tid): State
    requires Enabled(s, Advance(t))
  {
    match s.threads[t]
    case SetFlag(n) =>
      s.(refs := s.refs[n := s.refs[n] + FLAG],
         role := s.role[n := if s.refs[n] == 0 then Adding(t, false) else Flagged],
         threads := s.threads[t := if s.refs[n] == 0 then LoadHead(n, Return) else Idle])
    case LoadHead(n, resume) => s.(threads := s.threads[t := StoreNext(n, s.head, resume)])
    case StoreNext(n, head, resume) =>
      s.(next := s.next[n := head], threads := s.threads[t := StoreRefs(n, head, resume)])
    case StoreRefs(n, head, resume) =>
      s.(refs := s.refs[n := 1], role := s.role[n := Adding(t, true)],
         threads := s.threads[t := SwingHead(n, head, resume)])
    case SwingHead(n, head, resume) =>
      if s.head == head then
        s.(head := Some(n), list := [n] + s.list, role := s.role[n := Listed],
           threads := s.threads[t := Resumed(resume)])
      else s.(threads := s.threads[t := GiveBack(n, s.head, resume)])
    case GiveBack(n, head, resume) =>
      s.(refs := s.refs[n := s.refs[n] + (FLAG - 1)],
         role := s.role[n := if s.refs[n] == 1 then Adding(t, false) else Flagged],
         threads := s.threads[t := if s.refs[n] == 1 then StoreNext(n, head, resume) else Resumed(resume)])
    case GetHead => s.(threads := s.threads[t := WithHead(s.head)])
    case GetRefs(n) =>
      s.(threads := s.threads[t := if s.refs[n] % FLAG == 0 then GetHead else CountIn(n, s.refs[n])])
    case CountIn(n, refs) =>
      if s.refs[n] == refs then
        s.(refs := s.refs[n := refs + 1], threads := s.threads[t := ReadNext(n)])
      else s.(threads := s.threads[t := GetHead])
    case ReadNext(n) => s.(threads := s.threads[t := TakeHead(n, s.next[n])])
    case TakeHead(n, next) =>
      if s.head == Some(n) then
        s.(head := next, list := s.list[1..], role := s.role[n := Taken(t)], got := s.got[n := s.got[n] + 1],
           threads := s.threads[t := DropTwo(n)])
      else s.(threads := s.threads[t := CountOut(n, s.head)])
    case DropTwo(n) =>
      s.(refs := s.refs[n := s.refs[n] - 2], role := s.role[n := Owned], threads := s.threads[t := Idle])
    case CountOut(n, head) =>
      if s.refs[n] == FLAG + 1 then
        s.(refs := s.refs[n := s.refs[n] - 1], role := s.role[n := Adding(t, false)],
           threads := s.threads[t := LoadHead(n, GetWith(head))])
      else s.(refs := s.refs[n := s.refs[n] - 1], threads := s.threads[t := WithHead(head)])
  }

  function Apply(s: State, a: Action): State
    requires Enabled(s, a)
  {
    match a
    case Add(t, n) =>
      s.(role := s.role[n := Entering(t)], added := s.added[n := s.added[n] + 1],
         threads := s.threads[t := SetFlag(n)])
    case TryGet(t) => s.(threads := s.threads[t := GetHead])
    case Advance(t) => Advanced(s, t)
  }

  // ---------------------------------------------------------------------------
  // The invariant
  // ---------------------------------------------------------------------------

  /** Thread at p has counted itself into node n. */
  predicate Holds(p: Pc, n: Node) {
    (p.ReadNext? || p.TakeHead? || p.DropTwo? || p.CountOut?) && p.node == n
  }

  function Holders(threads: map<Tid, Pc>, n: Node): set<Tid> {
    set t | t in threads && Holds(threads[t], n)
  }

  predicate FlagSet(r: Role) { r.Flagged? || (r.Adding? && !r.published) }

  /** The reference the list itself has on a node. */
  predicate ListCounts(r: Role) { r.Listed? || r.Taken? || (r.Adding? && r.published) }

  /** The thread a node's role belongs to. */
  function RoleThread(r: Role): Option<Tid> {
    if r.Entering? || r.Taken? || r.Adding? then Some(r.who) else None
  }

  predicate Known(s: State, o: Option<Node>) { o.None? || HasNode(s, o.value) }

  predicate ResumeKnown(s: State, r: Resume) { r.Return? || Known(s, r.head) }

  /** The role a node must have for a thread that works on it. */
  predicate PcFits(s: State, t: Tid)
    requires t in s.threads
  {
    var p := s.threads[t];
    && (p.Idle? || p.GetHead? || HasNode(s, p.node))
    && match p
       case SetFlag(n) => s.role[n] == Entering(t)
       case LoadHead(n, r) => s.role[n] == Adding(t, false) && ResumeKnown(s, r)
       case StoreNext(n, h, r) => s.role[n] == Adding(t, false) && Known(s, h) && ResumeKnown(s, r)
       case StoreRefs(n, h, r) =>
         s.role[n] == Adding(t, false) && s.next[n] == h && Known(s, h) && ResumeKnown(s, r)
       case SwingHead(n, h, r) =>
         s.role[n] == Adding(t, true) && s.next[n] == h && Known(s, h) && ResumeKnown(s, r)
       case GiveBack(n, h, r) => s.role[n] == Adding(t, true) && Known(s, h) && ResumeKnown(s, r)
       case CountIn(n, refs) => refs % FLAG != 0
       case TakeHead(n, next) => s.next[n] == next
       case DropTwo(n) => s.role[n] == Taken(t)
       case CountOut(n, h) => Known(s, h)
       case _ => true
  }

  /** Thread at p is the one the role names. */
  predicate Acts(p: Pc, n: Node, r: Role) {
    match r
    case Entering(_) => p == SetFlag(n)
    case Taken(_) => p == DropTwo(n)
    case Adding(_, true) => (p.SwingHead? || p.GiveBack?) && p.node == n
    case Adding(_, false) => (p.LoadHead? || p.StoreNext? || p.StoreRefs?) && p.node == n
    case _ => true
  }

  /** A node's role, its word and the threads counted into it agree. */
  ghost predicate NodeFits(s: State, n: Node)
    requires HasNode(s, n)
  {
    var r, holders := s.role[n], Holders(s.threads, n);
    && (RoleThread(r).Some? ==> r.who in s.threads && Acts(s.threads[r.who], n, r))
    && (r.Flagged? ==> holders != {})
    && (r.Adding? && !r.published ==> holders == {})
    && s.refs[n] == (if FlagSet(r) then FLAG else 0) + |holders| + (if ListCounts(r) then 1 else 0)
  }

  ghost predicate Domains(s: State) {
    && s.refs.Keys == s.next.Keys == s.role.Keys == s.added.Keys == s.got.Keys
    && |s.threads| + 1 < FLAG
    && forall n :: n in s.next ==> Known(s, s.next[n])
  }

  /** The list is a chain of distinct nodes through their next pointers. */
  ghost predicate ListFits(s: State) {
    && s.head == (if s.list == [] then None else Some(s.list[0]))
    && (forall i, j :: 0 <= i < j < |s.list| ==> s.list[i] != s.list[j])
    && (forall i :: 0 <= i < |s.list| ==> HasNode(s, s.list[i]) && s.role[s.list[i]].Listed?)
    && (forall n :: n in s.role && s.role[n].Listed? ==> n in s.list)
    && (forall i :: 0 <= i < |s.list| ==> Linked(s, i))
  }

  predicate Linked(s: State, i: nat)
    requires i < |s.list|
  {
    s.list[i] in s.next && s.next[s.list[i]] == if i + 1 < |s.list| then Some(s.list[i + 1]) else None
  }

  /** A node is handed out once each time it was put in. */
  ghost predicate TallyFits(s: State, n: Node)
    requires HasNode(s, n)
  {
    s.added[n] == s.got[n] + if s.role[n].Owned? || s.role[n].Taken? then 0 else 1
  }

  ghost predicate ThreadsFit(s: State) {
    forall t :: t in s.threads ==> PcFits(s, t)
  }

  ghost predicate NodesFit(s: State) {
    forall n :: HasNode(s, n) ==> NodeFits(s, n)
  }

  ghost predicate TalliesFit(s: State) {
    forall n :: HasNode(s, n) ==> TallyFits(s, n)
  }

  ghost predicate Inv(s: State) {
    Domains(s) && ThreadsFit(s) && NodesFit(s) && ListFits(s) && TalliesFit(s)
  }

  lemma InitInv(nodes: set<Node>, threads: set<Tid>)
    requires |threads| + 1 < FLAG
    ensures Inv(Init(nodes, threads))
  {
    var s := Init(nodes, threads);
    assert s.threads.Keys == threads;
    forall n | HasNode(s, n) ensures NodeFits(s, n) {
      assert Holders(s.threads, n) == {};
    }
  }

  // ---------------------------------------------------------------------------
  // What one thread leaves alone
  // ---------------------------------------------------------------------------

  lemma HoldersStay(threads: map<Tid, Pc>, t: Tid, p: Pc, n: Node)
    requires t in threads && Holds(threads[t], n) == Holds(p, n)
    ensures Holders(threads[t := p], n) == Holders(threads, n)
  {
  }

  lemma HoldersJoin(threads: map<Tid, Pc>, t: Tid, p: Pc, n: Node)
    requires t in threads && !Holds(threads[t], n) && Holds(p, n)
    ensures |Holders(threads[t := p], n)| == |Holders(threads, n)| + 1
  {
    assert Holders(threads[t := p], n) == Holders(threads, n) + {t};
  }

  lemma HoldersLeave(threads: map<Tid, Pc>, t: Tid, p: Pc, n: Node)
    requires t in threads && Holds(threads[t], n) && !Holds(p, n)
    ensures |Holders(threads[t := p], n)| == |Holders(threads, n)| - 1
  {
    assert Holders(threads[t := p], n) == Holders(threads, n) - {t};
    assert t in Holders(threads, n);
  }

  /** The count stays far below the flag. */
  lemma FewHolders(threads: map<Tid, Pc>, n: Node)
    ensures |Holders(threads, n)| <= |threads|
  {
    SubsetSize(Holders(threads, n), threads.Keys);
  }

  lemma SubsetSize(a: set<Tid>, b: set<Tid>)
    requires a <= b
    ensures |a| <= |b|
  {
    assert b == a + (b - a);
  }

  /** From s to s' thread t has worked on node n alone, which nobody else has claimed, and its
      next pointer changed only if nobody was counted in. */
  ghost predicate WorksOn(s: State, s': State, t: Tid, n: Node) {
    && t in s.threads && t in s'.threads && HasNode(s, n) && HasNode(s', n)
    && s'.threads == s.threads[t := s'.threads[t]]
    && s'.refs == s.refs[n := s'.refs[n]] && s'.next == s.next[n := s'.next[n]] && s'.role == s.role[n := s'.role[n]]
    && s'.added == s.added[n := s'.added[n]] && s'.got == s.got[n := s'.got[n]]
    && (s.threads[t].Idle? || s.threads[t].GetHead? || s.threads[t].node == n)
    && (forall m :: m != n ==> !Holds(s'.threads[t], m))
    && (s'.role[n] == s.role[n] || RoleThread(s.role[n]).None? || RoleThread(s.role[n]) == Some(t))
    && (s'.next[n] == s.next[n] || (Holders(s.threads, n) == {} && RoleThread(s.role[n]) == Some(t)))
    && Known(s, s'.next[n])
  }

  lemma OtherThreadFits(s: State, s': State, t: Tid, n: Node, u: Tid)
    requires WorksOn(s, s', t, n) && u in s.threads && u != t && PcFits(s, u)
    ensures PcFits(s', u)
  {
    var p := s.threads[u];
    if p.TakeHead? && p.node == n {
      assert u in Holders(s.threads, n);
    }
  }

  lemma OtherNodeFits(s: State, s': State, t: Tid, n: Node, m: Node)
    requires WorksOn(s, s', t, n) && HasNode(s, m) && m != n && NodeFits(s, m)
    ensures NodeFits(s', m)
  {
    HoldersStay(s.threads, t, s'.threads[t], m);
  }

  lemma WorkKeepsInv(s: State, s': State, t: Tid, n: Node)
    requires Inv(s) && WorksOn(s, s', t, n)
    requires PcFits(s', t) && NodeFits(s', n) && ListFits(s') && TallyFits(s', n)
    ensures Inv(s')
  {
    hide PcFits, NodeFits, ListFits, Holders;
    assert s'.threads.Keys == s.threads.Keys;
    forall u | u in s'.threads ensures PcFits(s', u) {
      if u != t { OtherThreadFits(s, s', t, n, u); }
    }
    forall m | HasNode(s', m) ensures NodeFits(s', m) {
      if m != n { OtherNodeFits(s, s', t, n, m); }
    }
    forall m | HasNode(s', m) ensures TallyFits(s', m) {
      assert TallyFits(s, m);
    }
  }

  lemma NodeFacts(s: State, t: Tid, n: Node)
    requires Inv(s) && t in s.threads && HasNode(s, n)
    ensures PcFits(s, t) && NodeFits(s, n) && TallyFits(s, n) && ListFits(s) && Known(s, s.next[n])
    ensures |s.threads| + 1 < FLAG
  {
  }

  /** A node that is not listed may change without the list noticing. */
  lemma ListStays(s: State, s': State, t: Tid, n: Node)
    requires ListFits(s) && WorksOn(s, s', t, n) && s'.list == s.list && s'.head == s.head
    requires s.role[n].Listed? <==> s'.role[n].Listed?
    requires s.role[n].Listed? ==> s'.next[n] == s.next[n]
    ensures ListFits(s')
  {
    forall i | 0 <= i < |s'.list| ensures Linked(s', i) {
      assert Linked(s, i);
    }
  }

  // ---------------------------------------------------------------------------
  // Every step keeps the invariant
  // ---------------------------------------------------------------------------

  /** Steps that only move thread t, counted into the same node or into none. */
  lemma MoveKeepsInv(s: State, s': State, t: Tid, n: Node)
    requires Inv(s) && WorksOn(s, s', t, n) && s' == s.(threads := s'.threads)
    requires Holds(s'.threads[t], n) == Holds(s.threads[t], n)
    requires PcFits(s', t)
    requires RoleThread(s.role[n]) == Some(t) ==> Acts(s'.threads[t], n, s.role[n])
    ensures Inv(s')
  {
    hide Inv, ListFits, Holders, Acts;
    NodeFacts(s, t, n);
    HoldersStay(s.threads, t, s'.threads[t], n);
    ListStays(s, s', t, n);
    WorkKeepsInv(s, s', t, n);
  }

  lemma SamePc(s: State, s': State, u: Tid)
    requires s' == s.(threads := s'.threads) && u in s.threads && u in s'.threads && s'.threads[u] == s.threads[u]
    requires PcFits(s, u)
    ensures PcFits(s', u)
  {
  }

  lemma LookLeavesNode(s: State, s': State, t: Tid, m: Node)
    requires HasNode(s, m) && NodeFits(s, m) && TallyFits(s, m)
    requires t in s.threads && (s.threads[t].Idle? || s.threads[t].GetHead?)
    requires t in s'.threads && s' == s.(threads := s.threads[t := s'.threads[t]])
    requires s'.threads[t].Idle? || s'.threads[t].GetHead? || s'.threads[t].GetRefs?
    ensures NodeFits(s', m) && TallyFits(s', m)
  {
    HoldersStay(s.threads, t, s'.threads[t], m);
  }

  /** Before anything is added there may be no node at all; then a thread only looks at the head. */
  lemma LookKeepsInv(s: State, s': State, t: Tid)
    requires Inv(s) && t in s.threads && (s.threads[t].Idle? || s.threads[t].GetHead?)
    requires t in s'.threads && s' == s.(threads := s.threads[t := s'.threads[t]])
    requires s'.threads[t].Idle? || s'.threads[t].GetHead? || s'.threads[t].GetRefs?
    requires PcFits(s', t)
    ensures Inv(s')
  {
    hide ListFits, PcFits, NodeFits, TallyFits, Linked;
    assert s'.threads.Keys == s.threads.Keys;
    forall u | u in s'.threads ensures PcFits(s', u) {
      if u != t { SamePc(s, s', u); }
    }
    forall m | HasNode(s', m) ensures NodeFits(s', m) && TallyFits(s', m) {
      LookLeavesNode(s, s', t, m);
    }
    SameList(s, s');
  }

  lemma SameList(s: State, s': State)
    requires ListFits(s) && s' == s.(threads := s'.threads)
    ensures ListFits(s')
  {
    forall i | 0 <= i < |s'.list| ensures Linked(s', i) {
      assert Linked(s, i);
    }
  }

  lemma HeadKnown(s: State)
    requires ListFits(s)
    ensures Known(s, s.head)
  {
  }

  lemma AddKeepsInv(s: State, t: Tid, n: Node)
    requires Inv(s) && Enabled(s, Add(t, n))
    ensures Inv(Apply(s, Add(t, n)))
  {
    hide Inv, ListFits, Holders;
    var s' := Apply(s, Add(t, n));
    NodeFacts(s, t, n);
    HoldersStay(s.threads, t, s'.threads[t], n);
    ListStays(s, s', t, n);
    WorkKeepsInv(s, s', t, n);
  }

  /** The flag is never set twice: setting it cannot carry out of the 32-bit word. */
  lemma SetFlagKeepsInv(s: State, t: Tid)
    requires Inv(s) && Enabled(s, Advance(t)) && s.threads[t].SetFlag?
    ensures Inv(Advanced(s, t))
    ensures s.refs[s.threads[t].node] < FLAG
  {
    hide Inv, ListFits, Holders;
    var n, s' := s.threads[t].node, Advanced(s, t);
    NodeFacts(s, t, n);
    FewHolders(s.threads, n);
    HoldersStay(s.threads, t, s'.threads[t], n);
    ListStays(s, s', t, n);
    WorkKeepsInv(s, s', t, n);
  }

  lemma LinkKeepsInv(s: State, t: Tid)
    requires Inv(s) && Enabled(s, Advance(t))
    requires s.threads[t].LoadHead? || s.threads[t].StoreNext? || s.threads[t].StoreRefs?
    ensures Inv(Advanced(s, t))
  {
    hide Inv, ListFits, Holders;
    var n, s' := s.threads[t].node, Advanced(s, t);
    NodeFacts(s, t, n);
    HeadKnown(s);
    HoldersStay(s.threads, t, s'.threads[t], n);
    ListStays(s, s', t, n);
    WorkKeepsInv(s, s', t, n);
  }

  /** Linking puts the node in front of exactly the list its next pointer leads to. */
  lemma SwingListFits(s: State, s': State, n: Node)
    requires ListFits(s) && HasNode(s, n) && !s.role[n].Listed? && s.next[n] == s.head
    requires s'.head == Some(n) && s'.list == [n] + s.list && s'.role == s.role[n := Listed]
    requires s'.refs == s.refs && s'.next == s.next && s'.added == s.added && s'.got == s.got
    ensures ListFits(s')
  {
    forall i | 0 <= i < |s'.list| ensures Linked(s', i) {
      if i > 0 { assert Linked(s, i - 1); }
    }
  }

  lemma LinkedIn(s: State, t: Tid)
    requires Inv(s) && Enabled(s, Advance(t)) && s.threads[t].SwingHead? && s.head == s.threads[t].head
    ensures Inv(Advanced(s, t))
  {
    hide Inv, ListFits, Holders;
    var n, s' := s.threads[t].node, Advanced(s, t);
    NodeFacts(s, t, n);
    HoldersStay(s.threads, t, s'.threads[t], n);
    SwingListFits(s, s', n);
    WorkKeepsInv(s, s', t, n);
  }

  lemma SwingKeepsInv(s: State, t: Tid)
    requires Inv(s) && Enabled(s, Advance(t)) && s.threads[t].SwingHead?
    ensures Inv(Advanced(s, t))
  {
    hide Inv, ListFits, Holders, NodeFits;
    var n, s' := s.threads[t].node, Advanced(s, t);
    if s.head == s.threads[t].head {
      LinkedIn(s, t);
    } else {
      NodeFacts(s, t, n);
      HeadKnown(s);
      MoveKeepsInv(s, s', t, n);
    }
  }

  lemma GiveBackKeepsInv(s: State, t: Tid)
    requires Inv(s) && Enabled(s, Advance(t)) && s.threads[t].GiveBack?
    ensures Inv(Advanced(s, t))
  {
    hide Inv, ListFits, Holders;
    var n, s' := s.threads[t].node, Advanced(s, t);
    NodeFacts(s, t, n);
    FewHolders(s.threads, n);
    HoldersStay(s.threads, t, s'.threads[t], n);
    ListStays(s, s', t, n);
    WorkKeepsInv(s, s', t, n);
  }

  lemma GetRefsKeepsInv(s: State, t: Tid)
    requires Inv(s) && Enabled(s, Advance(t)) && (s.threads[t].GetRefs? || s.threads[t].ReadNext?)
    ensures Inv(Advanced(s, t))
  {
    hide Inv, ListFits, Holders;
    var n, s' := s.threads[t].node, Advanced(s, t);
    NodeFacts(s, t, n);
    MoveKeepsInv(s, s', t, n);
  }

  lemma CountedIn(s: State, t: Tid)
    requires Inv(s) && Enabled(s, Advance(t)) && s.threads[t].CountIn?
    requires s.refs[s.threads[t].node] == s.threads[t].refs
    ensures Inv(Advanced(s, t))
  {
    hide Inv, ListFits, Holders;
    var n, s' := s.threads[t].node, Advanced(s, t);
    NodeFacts(s, t, n);
    HoldersJoin(s.threads, t, s'.threads[t], n);
    ListStays(s, s', t, n);
    WorkKeepsInv(s, s', t, n);
  }

  lemma CountInKeepsInv(s: State, t: Tid)
    requires Inv(s) && Enabled(s, Advance(t)) && s.threads[t].CountIn?
    ensures Inv(Advanced(s, t))
  {
    hide Inv, ListFits, Holders;
    var n, s' := s.threads[t].node, Advanced(s, t);
    if s.refs[n] == s.threads[t].refs {
      CountedIn(s, t);
    } else {
      NodeFacts(s, t, n);
      MoveKeepsInv(s, s', t, n);
    }
  }

  /** A thread that swings the head installs the head's real successor, however long ago it read
      the pointer and whatever happened to the node in between. */
  lemma TakenHeadSuccessor(s: State, t: Tid)
    requires Inv(s) && Enabled(s, Advance(t)) && s.threads[t].TakeHead? && s.head == Some(s.threads[t].node)
    ensures |s.list| > 0 && s.list[0] == s.threads[t].node
    ensures s.threads[t].next == if |s.list| > 1 then Some(s.list[1]) else None
  {
    assert PcFits(s, t) && Linked(s, 0);
  }

  lemma TakeListFits(s: State, s': State, t: Tid)
    requires ListFits(s) && |s.list| > 0 && s'.list == s.list[1..]
    requires s'.head == (if |s.list| > 1 then Some(s.list[1]) else None)
    requires s'.role == s.role[s.list[0] := Taken(t)] && s'.got.Keys == s.got.Keys
    requires s'.refs == s.refs && s'.next == s.next && s'.added == s.added
    ensures ListFits(s')
  {
    forall i | 0 <= i < |s'.list| ensures Linked(s', i) {
      assert Linked(s, i + 1);
    }
    forall n | n in s'.role && s'.role[n].Listed? ensures n in s'.list {
      var i :| 0 <= i < |s.list| && s.list[i] == n;
      assert s'.list[i - 1] == n;
    }
  }

  lemma TakeKeepsInv(s: State, t: Tid)
    requires Inv(s) && Enabled(s, Advance(t)) && s.threads[t].TakeHead?
    ensures Inv(Advanced(s, t))
  {
    hide Inv, ListFits, Holders;
    var n, s' := s.threads[t].node, Advanced(s, t);
    NodeFacts(s, t, n);
    HeadKnown(s);
    if s.head == Some(n) {
      TakenHeadSuccessor(s, t);
      HoldersStay(s.threads, t, s'.threads[t], n);
      TakeListFits(s, s', t);
      WorkKeepsInv(s, s', t, n);
    } else {
      MoveKeepsInv(s, s', t, n);
    }
  }

  lemma DropTwoKeepsInv(s: State, t: Tid)
    requires Inv(s) && Enabled(s, Advance(t)) && s.threads[t].DropTwo?
    ensures Inv(Advanced(s, t))
  {
    hide Inv, ListFits, Holders;
    var n, s' := s.threads[t].node, Advanced(s, t);
    NodeFacts(s, t, n);
    HoldersLeave(s.threads, t, s'.threads[t], n);
    ListStays(s, s', t, n);
    WorkKeepsInv(s, s', t, n);
  }

  /** The last thread to count itself out of a flagged node, and nobody else, takes over linking it. */
  lemma LastOneOutLinks(s: State, t: Tid)
    requires Inv(s) && Enabled(s, Advance(t)) && s.threads[t].CountOut?
    ensures var n := s.threads[t].node;
            s.refs[n] == FLAG + 1 <==> s.role[n].Flagged? && Holders(s.threads, n) == {t}
  {
    var n := s.threads[t].node;
    assert PcFits(s, t) && NodeFits(s, n) && t in Holders(s.threads, n);
    FewHolders(s.threads, n);
    var others := Holders(s.threads, n) - {t};
    assert Holders(s.threads, n) == others + {t};
  }

  lemma CountOutKeepsInv(s: State, t: Tid)
    requires Inv(s) && Enabled(s, Advance(t)) && s.threads[t].CountOut?
    ensures Inv(Advanced(s, t))
  {
    hide Inv, ListFits, Holders;
    var n, s' := s.threads[t].node, Advanced(s, t);
    NodeFacts(s, t, n);
    LastOneOutLinks(s, t);
    HoldersLeave(s.threads, t, s'.threads[t], n);
    ListStays(s, s', t, n);
    WorkKeepsInv(s, s', t, n);
  }

  lemma StepKeepsInv(s: State, a: Action)
    requires Inv(s) && Enabled(s, a)
    ensures Inv(Apply(s, a))
  {
    hide Domains, ThreadsFit, NodesFit, TalliesFit, Advanced;
    match a
    case Add(t, n) => AddKeepsInv(s, t, n);
    case TryGet(t) => LookKeepsInv(s, Apply(s, a), t);
    case Advance(t) =>
      match s.threads[t] {
        case SetFlag(_) => SetFlagKeepsInv(s, t);
        case LoadHead(_, _) => LinkKeepsInv(s, t);
        case StoreNext(_, _, _) => LinkKeepsInv(s, t);
        case StoreRefs(_, _, _) => LinkKeepsInv(s, t);
        case SwingHead(_, _, _) => SwingKeepsInv(s, t);
        case GiveBack(_, _, _) => GiveBackKeepsInv(s, t);
        case GetHead => GetHeadKeepsInv(s, t);
        case GetRefs(_) => GetRefsKeepsInv(s, t);
        case CountIn(_, _) => CountInKeepsInv(s, t);
        case ReadNext(_) => GetRefsKeepsInv(s, t);
        case TakeHead(_, _) => TakeKeepsInv(s, t);
        case DropTwo(_) => DropTwoKeepsInv(s, t);
        case CountOut(_, _) => CountOutKeepsInv(s, t);
      }
  }

  lemma GetHeadKeepsInv(s: State, t: Tid)
    requires Inv(s) && Enabled(s, Advance(t)) && s.threads[t].GetHead?
    ensures Inv(Advanced(s, t))
  {
    hide NodesFit, ThreadsFit, TalliesFit, ListFits;
    HeadKnown(s);
    LookKeepsInv(s, Advanced(s, t), t);
  }

  /** No thread ever gets stuck: nodes exist, counts never run below zero, and the flag a
      successful taker asserts to be clear is clear. */
  lemma NeverStuck(s: State, t: Tid)
    requires Inv(s) && t in s.threads && !s.threads[t].Idle?
    ensures Enabled(s, Advance(t))
    ensures s.threads[t].DropTwo? ==> 2 <= s.refs[s.threads[t].node] < FLAG
  {
    var p := s.threads[t];
    assert PcFits(s, t);
    if !p.GetHead? {
      assert NodeFits(s, p.node);
      FewHolders(s.threads, p.node);
      if p.DropTwo? || p.CountOut? {
        assert t in Holders(s.threads, p.node);
        assert |Holders(s.threads, p.node)| >= 1;
      }
    }
  }

  // ---------------------------------------------------------------------------
  // Runs
  // ---------------------------------------------------------------------------

  ghost predicate Next(s: State, s': State) {
    exists a: Action :: Enabled(s, a) && s' == Apply(s, a)
  }

  ghost predicate IsRun(run: seq<State>, nodes: set<Node>, threads: set<Tid>) {
    && |run| > 0 && run[0] == Init(nodes, threads) && |threads| + 1 < FLAG
    && forall i :: 0 <= i < |run| - 1 ==> Next(run[i], run[i + 1])
  }

  lemma {:induction false} RunInv(run: seq<State>, nodes: set<Node>, threads: set<Tid>, i: nat)
    requires IsRun(run, nodes, threads) && i < |run|
    ensures Inv(run[i])
  {
    hide Inv, Enabled, Apply;
    if i == 0 {
      InitInv(nodes, threads);
    } else {
      RunInv(run, nodes, threads, i - 1);
      assert Next(run[i - 1], run[i - 1 + 1]);
      var a: Action :| Enabled(run[i - 1], a) && run[i] == Apply(run[i - 1], a);
      StepKeepsInv(run[i - 1], a);
    }
  }

  /** In every state of every run the list is a chain of distinct nodes, and each node has been
      handed out as often as it was put in, or once less. */
  lemma NeverHandedOutTwice(run: seq<State>, nodes: set<Node>, threads: set<Tid>, i: nat, n: Node)
    requires IsRun(run, nodes, threads) && i < |run| && HasNode(run[i], n)
    ensures ListFits(run[i])
    ensures run[i].got[n] <= run[i].added[n] <= run[i].got[n] + 1
    ensures n in run[i].list ==> run[i].added[n] == run[i].got[n] + 1
  {
    RunInv(run, nodes, threads, i);
    assert TallyFits(run[i], n);
  }

  /** Nothing is lost: when no thread is inside a call, every node that was put in and not handed
      out again is on the list, its count is the list's one reference and its flag is clear. */
  lemma RestingList(s: State, n: Node)
    requires Inv(s) && HasNode(s, n) && forall t :: t in s.threads ==> s.threads[t].Idle?
    ensures n in s.list <==> s.added[n] == s.got[n] + 1
    ensures s.refs[n] == if n in s.list then 1 else 0
  {
    assert NodeFits(s, n) && TallyFits(s, n);
    assert Holders(s.threads, n) == {};
  }

  // ---------------------------------------------------------------------------
  // What a call does
  // ---------------------------------------------------------------------------

  /** Up to n steps of thread t alone, as long as it is inside a call. */
  function Alone(s: State, t: Tid, n: nat): State
    decreases n
  {
    if n == 0 || !Enabled(s, Advance(t)) then s else Alone(Advanced(s, t), t, n - 1)
  }

  ghost predicate AllIdle(s: State) { forall t :: t in s.threads ==> s.threads[t].Idle? }

  /** At rest the head is the first node of the list, its count is one and its successor is known. */
  lemma RestingHead(s: State)
    requires Inv(s) && AllIdle(s)
    ensures s.list == [] <==> s.head == None
    ensures s.list != [] ==>
              && s.head == Some(s.list[0]) && HasNode(s, s.list[0]) && s.refs[s.list[0]] == 1 && s.role[s.list[0]].Listed?
              && s.next[s.list[0]] == if |s.list| > 1 then Some(s.list[1]) else None
  {
    if s.list != [] {
      HeadLinks(s);
      RestingList(s, s.list[0]);
    }
  }

  lemma HeadLinks(s: State)
    requires ListFits(s) && s.list != []
    ensures s.head == Some(s.list[0]) && HasNode(s, s.list[0]) && s.role[s.list[0]].Listed?
    ensures s.next[s.list[0]] == if |s.list| > 1 then Some(s.list[1]) else None
  {
    assert Linked(s, 0);
  }

  lemma UpdateTwice<K, V>(m: map<K, V>, k: K, a: V, b: V)
    ensures m[k := a][k := b] == m[k := b]
  {
  }

  lemma UpdateSame<K, V>(m: map<K, V>, k: K, a: V)
    requires k in m && m[k] == a
    ensures m[k := a] == m
  {
  }

  lemma AloneStep(s: State, s': State, t: Tid, n: nat)
    requires n > 0 && Enabled(s, Advance(t)) && s' == Advanced(s, t)
    ensures Alone(s, t, n) == Alone(s', t, n - 1)
  {
    hide Advanced, Enabled;
  }

  /** The first three steps of an undisturbed `try_get`, up to the read of the next pointer. */
  lemma LoneLook(s: State, t: Tid, n: Node)
    requires t in s.threads && s.threads[t] == GetHead && s.head == Some(n) && HasNode(s, n) && s.refs[n] == 1
    ensures Alone(s, t, 6)
         == Alone(s.(refs := s.refs[n := 2], threads := s.threads[t := ReadNext(n)]), t, 3)
  {
    hide Alone;
    var s1 := s.(threads := s.threads[t := GetRefs(n)]);
    var s2 := s.(threads := s.threads[t := CountIn(n, 1)]);
    var s3 := s.(refs := s.refs[n := 2], threads := s.threads[t := ReadNext(n)]);
    UpdateTwice(s.threads, t, GetRefs(n), CountIn(n, 1));
    UpdateTwice(s.threads, t, CountIn(n, 1), ReadNext(n));
    AloneStep(s, s1, t, 6);
    AloneStep(s1, s2, t, 5);
    AloneStep(s2, s3, t, 4);
  }

  /** The last three: taking the node off and dropping both references. */
  lemma LoneTake(s: State, t: Tid, n: Node)
    requires t in s.threads && s.threads[t] == ReadNext(n) && s.head == Some(n) && HasNode(s, n) && s.refs[n] == 2 && s.list != []
    ensures Alone(s, t, 3)
         == s.(head := s.next[n], refs := s.refs[n := 0], list := s.list[1..], role := s.role[n := Owned],
               got := s.got[n := s.got[n] + 1], threads := s.threads[t := Idle])
  {
    hide Alone;
    var s1 := s.(threads := s.threads[t := TakeHead(n, s.next[n])]);
    var s2 := s.(head := s.next[n], list := s.list[1..], role := s.role[n := Taken(t)], got := s.got[n := s.got[n] + 1],
                 threads := s.threads[t := DropTwo(n)]);
    var s3 := s2.(refs := s.refs[n := 0], role := s.role[n := Owned], threads := s.threads[t := Idle]);
    UpdateTwice(s.threads, t, TakeHead(n, s.next[n]), DropTwo(n));
    UpdateTwice(s.threads, t, DropTwo(n), Idle);
    UpdateTwice(s.role, n, Taken(t), Owned);
    AloneStep(s, s1, t, 3);
    AloneStep(s1, s2, t, 2);
    AloneStep(s2, s3, t, 1);
    AloneEnds(s3, t);
  }

  lemma AloneEnds(s: State, t: Tid)
    ensures Alone(s, t, 0) == s
  {
  }

  lemma LoneGet(s: State, t: Tid, n: Node)
    requires t in s.threads && s.threads[t].Idle? && s.head == Some(n) && HasNode(s, n) && s.refs[n] == 1 && s.list != []
    ensures Alone(Apply(s, TryGet(t)), t, 6)
         == s.(head := s.next[n], refs := s.refs[n := 0], list := s.list[1..], role := s.role[n := Owned],
               got := s.got[n := s.got[n] + 1])
  {
    hide Alone;
    var s0 := Apply(s, TryGet(t));
    var s1 := s0.(refs := s0.refs[n := 2], threads := s0.threads[t := ReadNext(n)]);
    LoneLook(s0, t, n);
    LoneTake(s1, t, n);
    UpdateTwice(s.refs, n, 2, 0);
    UpdateTwice(s.threads, t, GetHead, ReadNext(n));
    UpdateTwice(s.threads, t, ReadNext(n), Idle);
    UpdateSame(s.threads, t, Idle);
  }

  lemma LoneGetNothing(s: State, t: Tid)
    requires t in s.threads && s.threads[t].Idle? && s.head == None
    ensures Alone(Apply(s, TryGet(t)), t, 6) == s
  {
    var s0 := Apply(s, TryGet(t));
    UpdateTwice(s.threads, t, GetHead, Idle);
    UpdateSame(s.threads, t, Idle);
    AloneStep(s0, s, t, 6);
    assert Alone(s, t, 5) == s;
  }

  /** The first node is off the list, with no reference left on it, and handed out once more. */
  predicate TookFirst(s: State, s': State) {
    && s.list != [] && HasNode(s, s.list[0]) && HasNode(s', s.list[0])
    && s'.list == s.list[1..] && s'.head == (if |s.list| > 1 then Some(s.list[1]) else None)
    && s'.role == s.role[s.list[0] := Owned] && s'.refs == s.refs[s.list[0] := 0]
    && s'.got == s.got[s.list[0] := s.got[s.list[0]] + 1]
    && s'.added == s.added && s'.next == s.next && s'.threads == s.threads
  }

  /** An undisturbed `try_get` takes the first node off the list and hands it out, and comes back with
      nothing, leaving everything as it was, exactly when the list is empty. */
  lemma LoneGetTakesFirst(s: State, t: Tid)
    requires Inv(s) && AllIdle(s) && Enabled(s, TryGet(t))
    ensures var s' := Alone(Apply(s, TryGet(t)), t, 6);
            (s.list == [] ==> s' == s) && (s.list != [] ==> TookFirst(s, s'))
  {
    hide Inv, AllIdle, Alone, Apply;
    RestingHead(s);
    if s.list == [] { LoneGetNothing(s, t); } else { LoneGet(s, t, s.list[0]); }
  }

  lemma LoneAdd(s: State, t: Tid, n: Node)
    requires t in s.threads && s.threads[t].Idle? && HasNode(s, n) && s.role[n].Owned? && s.refs[n] == 0
    ensures Alone(Apply(s, Add(t, n)), t, 5)
         == s.(head := Some(n), next := s.next[n := s.head], refs := s.refs[n := 1], list := [n] + s.list,
               role := s.role[n := Listed], added := s.added[n := s.added[n] + 1])
  {
    hide Alone;
    var s0 := Apply(s, Add(t, n));
    var s1 := s0.(refs := s.refs[n := FLAG], role := s.role[n := Adding(t, false)],
                  threads := s.threads[t := LoadHead(n, Return)]);
    UpdateTwice(s.role, n, Entering(t), Adding(t, false));
    UpdateTwice(s.threads, t, SetFlag(n), LoadHead(n, Return));
    AloneStep(s0, s1, t, 5);
    LoneLink(s1, t, n);
    UpdateTwice(s.refs, n, FLAG, 1);
    UpdateTwice(s.role, n, Adding(t, false), Listed);
    UpdateTwice(s.threads, t, LoadHead(n, Return), Idle);
    UpdateSame(s.threads, t, Idle);
  }

  predicate Prepended(s: State, s': State, n: Node) {
    && HasNode(s, n) && HasNode(s', n) && s'.list == [n] + s.list && s'.head == Some(n)
    && s'.role == s.role[n := Listed] && s'.refs == s.refs[n := 1] && s'.next == s.next[n := s.head]
    && s'.added == s.added[n := s.added[n] + 1] && s'.got == s.got && s'.threads == s.threads
  }

  /** An undisturbed `add` puts the node in front of the list. */
  lemma LoneAddPrepends(s: State, t: Tid, n: Node)
    requires Inv(s) && AllIdle(s) && Enabled(s, Add(t, n))
    ensures Prepended(s, Alone(Apply(s, Add(t, n)), t, 5), n)
  {
    hide Inv, AllIdle, Alone, Apply;
    OwnedCount(s, n);
    LoneAdd(s, t, n);
  }

  lemma OwnedCount(s: State, n: Node)
    requires Inv(s) && AllIdle(s) && HasNode(s, n) && s.role[n].Owned?
    ensures s.refs[n] == 0
  {
    assert NodeFits(s, n);
    assert Holders(s.threads, n) == {};
  }

  lemma LoneLink(s: State, t: Tid, n: Node)
    requires t in s.threads && s.threads[t] == LoadHead(n, Return) && HasNode(s, n)
    ensures Alone(s, t, 4)
         == s.(head := Some(n), next := s.next[n := s.head], refs := s.refs[n := 1], list := [n] + s.list,
               role := s.role[n := Listed], threads := s.threads[t := Idle])
  {
    hide Alone;
    var s1 := s.(threads := s.threads[t := StoreNext(n, s.head, Return)]);
    var s2 := s.(next := s.next[n := s.head], threads := s.threads[t := StoreRefs(n, s.head, Return)]);
    UpdateTwice(s.threads, t, StoreNext(n, s.head, Return), StoreRefs(n, s.head, Return));
    AloneStep(s, s1, t, 4);
    AloneStep(s1, s2, t, 3);
    LoneSwing(s2, t, n);
    UpdateTwice(s.threads, t, StoreRefs(n, s.head, Return), Idle);
  }

  lemma LoneSwing(s: State, t: Tid, n: Node)
    requires t in s.threads && s.threads[t] == StoreRefs(n, s.head, Return) && HasNode(s, n)
    ensures Alone(s, t, 2)
         == s.(head := Some(n), refs := s.refs[n := 1], list := [n] + s.list, role := s.role[n := Listed],
               threads := s.threads[t := Idle])
  {
    hide Alone;
    var s1 := s.(refs := s.refs[n := 1], role := s.role[n := Adding(t, true)],
                 threads := s.threads[t := SwingHead(n, s.head, Return)]);
    var s2 := s1.(head := Some(n), list := [n] + s.list, role := s.role[n := Listed], threads := s.threads[t := Idle]);
    UpdateTwice(s.role, n, Adding(t, true), Listed);
    UpdateTwice(s.threads, t, SwingHead(n, s.head, Return), Idle);
    AloneStep(s, s1, t, 2);
    AloneStep(s1, s2, t, 1);
    AloneEnds(s2, t);
  }

  /** The thread is inside `try_get`; it is there, in the end, with a head in hand that was null. */
  predicate Getting(p: Pc) {
    match p
    case GetHead => true
    case GetRefs(_) => true
    case CountIn(_, _) => true
    case ReadNext(_) => true
    case TakeHead(_, _) => true
    case DropTwo(_) => true
    case CountOut(_, _) => true
    case LoadHead(_, resume) => resume.GetWith?
    case StoreNext(_, _, resume) => resume.GetWith?
    case StoreRefs(_, _, resume) => resume.GetWith?
    case SwingHead(_, _, resume) => resume.GetWith?
    case GiveBack(_, _, resume) => resume.GetWith?
    case _ => false
  }

  predicate CarriesNull(p: Pc) {
    match p
    case CountOut(_, head) => head.None?
    case LoadHead(_, resume) => resume == GetWith(None)
    case StoreNext(_, _, resume) => resume == GetWith(None)
    case StoreRefs(_, _, resume) => resume == GetWith(None)
    case SwingHead(_, _, resume) => resume == GetWith(None)
    case GiveBack(_, _, resume) => resume == GetWith(None)
    case _ => false
  }

  /** What a step of t inside `try_get` may come to: it loads a null head, keeps what it has, or ends
      with a node. */
  predicate Ends(s: State, s': State, t: Tid)
    requires t in s.threads
  {
    && t in s'.threads
    && (CarriesNull(s'.threads[t]) ==> CarriesNull(s.threads[t]) || s.head.None?)
    && (s'.threads[t].Idle? ==> s.threads[t].DropTwo? || CarriesNull(s.threads[t]) || s.head.None?)
    && (Getting(s'.threads[t]) || s'.threads[t].Idle?)
  }

  lemma LookEnds(s: State, t: Tid)
    requires Enabled(s, Advance(t))
    requires var p := s.threads[t]; p.GetHead? || p.GetRefs? || p.CountIn? || p.ReadNext?
    ensures Ends(s, Advanced(s, t), t)
  {
  }

  lemma TakeEnds(s: State, t: Tid)
    requires Enabled(s, Advance(t))
    requires var p := s.threads[t]; p.TakeHead? || p.DropTwo? || p.CountOut?
    ensures Ends(s, Advanced(s, t), t)
  {
  }

  lemma RelinkEnds(s: State, t: Tid)
    requires Enabled(s, Advance(t)) && Getting(s.threads[t])
    requires var p := s.threads[t]; p.LoadHead? || p.StoreNext? || p.StoreRefs? || p.SwingHead? || p.GiveBack?
    ensures Ends(s, Advanced(s, t), t)
  {
  }

  lemma NullComesFromHead(s: State, t: Tid)
    requires Enabled(s, Advance(t)) && Getting(s.threads[t])
    ensures Ends(s, Advanced(s, t), t)
  {
    hide Advanced, Ends;
    var p := s.threads[t];
    if p.GetHead? || p.GetRefs? || p.CountIn? || p.ReadNext? {
      LookEnds(s, t);
    } else if p.TakeHead? || p.DropTwo? || p.CountOut? {
      TakeEnds(s, t);
    } else {
      RelinkEnds(s, t);
    }
  }

  /** From just after its beginning at step i until step j, thread t is inside `try_get`. */
  ghost predicate IsCall(run: seq<State>, i: nat, j: nat, t: Tid) {
    && i < j < |run| && t in run[i + 1].threads && run[i + 1].threads[t] == GetHead
    && forall k :: i < k < j ==> t in run[k].threads && Getting(run[k].threads[t])
  }

  /** At some step since then the head was null. */
  ghost predicate SawNull(run: seq<State>, i: nat, j: nat)
    requires j <= |run|
  {
    exists k :: i < k < j && run[k].head.None?
  }

  lemma OtherThreadsStay(s: State, a: Action, t: Tid)
    requires Enabled(s, a) && a.tid != t && t in s.threads
    ensures t in Apply(s, a).threads && Apply(s, a).threads[t] == s.threads[t]
  {
  }

  lemma {:induction false} NullSeen(run: seq<State>, nodes: set<Node>, threads: set<Tid>, i: nat, j: nat, t: Tid)
    requires IsRun(run, nodes, threads) && IsCall(run, i, j, t) && t in run[j].threads
    requires CarriesNull(run[j].threads[t])
    ensures SawNull(run, i, j)
    decreases j
  {
    hide Enabled, Apply, Advanced, CarriesNull;
    assert !CarriesNull(GetHead) by { HeadNotLoaded(); }
    assert Next(run[j - 1], run[j - 1 + 1]);
    var a: Action :| Enabled(run[j - 1], a) && run[j] == Apply(run[j - 1], a);
    StepCarries(run[j - 1], a, t);
    if CarriesNull(run[j - 1].threads[t]) {
      NullSeen(run, nodes, threads, i, j - 1, t);
      var k :| i < k < j - 1 && run[k].head.None?;
    } else {
      assert run[j - 1].head.None?;
    }
  }

  lemma HeadNotLoaded()
    ensures !CarriesNull(GetHead)
  {
  }

  lemma StepCarries(s: State, a: Action, t: Tid)
    requires Enabled(s, a) && t in s.threads && Getting(s.threads[t])
    ensures var s' := Apply(s, a);
            && t in s'.threads
            && (CarriesNull(s'.threads[t]) ==> CarriesNull(s.threads[t]) || s.head.None?)
            && (s'.threads[t].Idle? ==> s.threads[t].DropTwo? || CarriesNull(s.threads[t]) || s.head.None?)
  {
    hide Advanced, CarriesNull;
    if a.tid == t {
      NullComesFromHead(s, t);
    } else {
      OtherThreadsStay(s, a, t);
    }
  }

  /** In every run a `try_get` that comes back with nothing, that is, otherwise than by dropping the two
      references on a node it has taken, has found the list empty at some moment during the call. */
  lemma EmptyHandedSawEmpty(run: seq<State>, nodes: set<Node>, threads: set<Tid>, i: nat, j: nat, t: Tid)
    requires IsRun(run, nodes, threads) && IsCall(run, i, j, t) && i + 1 < j
    requires t in run[j].threads && run[j].threads[t].Idle? && !run[j - 1].threads[t].DropTwo?
    ensures exists k :: i < k < j && run[k].head.None? && run[k].list == []
  {
    hide Enabled, Apply, Advanced, CarriesNull, Inv;
    assert Next(run[j - 1], run[j - 1 + 1]);
    var a: Action :| Enabled(run[j - 1], a) && run[j] == Apply(run[j - 1], a);
    StepCarries(run[j - 1], a, t);
    if !run[j - 1].head.None? {
      NullSeen(run, nodes, threads, i, j - 1, t);
    }
    var k :| i < k < j && run[k].head.None?;
    RunInv(run, nodes, threads, k);
    NullMeansEmpty(run[k]);
  }

  lemma NullMeansEmpty(s: State)
    requires Inv(s) && s.head.None?
    ensures s.list == []
  {
  }
}
