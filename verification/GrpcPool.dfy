/**
  The connection pool of a gRPC backend, before Close.

  A connection is a number; fifty copies of each one circulate between the pool channel and
  the Execute calls that borrow them.
*/
module GrpcPool {
  import opened Wrappers
  import opened Totals
  import Gateway

  const ExecutorConcurrency: nat := 50

  /** Program points of newGrpcBackend and Execute. */
  datatype Point =
    | Getting                                          // before the select in getOrCreateClient
    | Filling(conn: nat, left: nat, thenUse: bool)     // in newClient's loop
    | Blocked                                          // after newClient, waiting for a copy
    | Using(conn: nat)
    | Ended

  datatype State = State(pool: seq<nat>, dialed: nat, calls: seq<Point>)

  const Init := State([], 0, [])

  datatype Act =
    | Open                     // newGrpcBackend
    | Execute
    | Borrow(i: nat)
    | Dial(i: nat)             // the pool looked empty
    | DialFail(i: nat)
    | Fill(i: nat)
    | Filled(i: nat)
    | Return(i: nat)

  predicate Enabled(s: State, l: Act) {
    match l
    case Open => true
    case Execute => true
    case Borrow(i) => i < |s.calls| && (s.calls[i].Getting? || s.calls[i].Blocked?) && s.pool != []
    case Dial(i) => i < |s.calls| && s.calls[i].Getting?
    case DialFail(i) => i < |s.calls| && s.calls[i].Getting?
    case Fill(i) => i < |s.calls| && s.calls[i].Filling? && s.calls[i].left > 0
    case Filled(i) => i < |s.calls| && s.calls[i].Filling? && s.calls[i].left == 0
    case Return(i) => i < |s.calls| && s.calls[i].Using?
  }

  function Do(s: State, l: Act): State
    requires Enabled(s, l)
  {
    match l
    case Open => s.(dialed := s.dialed + 1, calls := s.calls + [Filling(s.dialed, ExecutorConcurrency, false)])
    case Execute => s.(calls := s.calls + [Getting])
    case Borrow(i) => s.(pool := s.pool[1..], calls := s.calls[i := Using(s.pool[0])])
    case Dial(i) => s.(dialed := s.dialed + 1, calls := s.calls[i := Filling(s.dialed, ExecutorConcurrency, true)])
    case DialFail(i) => s.(calls := s.calls[i := Ended])
    case Fill(i) =>
      var p := s.calls[i];
      s.(pool := s.pool + [p.conn], calls := s.calls[i := p.(left := p.left - 1)])
    case Filled(i) => s.(calls := s.calls[i := if s.calls[i].thenUse then Blocked else Ended])
    case Return(i) => s.(pool := s.pool + [s.calls[i].conn], calls := s.calls[i := Ended])
  }

  predicate Legal(s: State, run: seq<Act>)
    decreases |run|
  {
    run == [] || (Enabled(s, run[0]) && Legal(Do(s, run[0]), run[1..]))
  }

  function Exec(s: State, run: seq<Act>): State
    requires Legal(s, run)
    decreases |run|
  {
    if run == [] then s else Exec(Do(s, run[0]), run[1..])
  }

  // ----- copies of a connection

  function UseWeight(conn: nat): Point -> nat {
    (p: Point) => if p == Using(conn) then 1 else 0
  }

  function LeftWeight(conn: nat): Point -> nat {
    (p: Point) => if p.Filling? && p.conn == conn then p.left else 0
  }

  function CopyWeight(conn: nat): Point -> nat {
    (p: Point) => Copies(p, conn)
  }

  predicate StillFilling(s: State, conn: nat) {
    exists i | 0 <= i < |s.calls| :: s.calls[i].Filling? && s.calls[i].conn == conn && s.calls[i].left > 0
  }

  ghost predicate CopiesInv(s: State, conn: nat) {
    multiset(s.pool)[conn] + Total(CopyWeight(conn), s.calls) == if conn < s.dialed then ExecutorConcurrency else 0
  }

  function Copies(p: Point, conn: nat): nat {
    if p == Using(conn) then 1 else if p.Filling? && p.conn == conn then p.left else 0
  }

  lemma {:induction false} CopiesAfter(calls: seq<Point>, i: nat, p: Point, conn: nat)
    requires i < |calls|
    ensures Total(CopyWeight(conn), calls[i := p]) + Copies(calls[i], conn) == Total(CopyWeight(conn), calls) + Copies(p, conn)
  {
    Changed(CopyWeight(conn), calls, i, p);
  }

  lemma {:induction false} PoolTaken(pool: seq<nat>, conn: nat)
    requires pool != []
    ensures multiset(pool)[conn] == multiset(pool[1..])[conn] + if pool[0] == conn then 1 else 0
  {
    assert pool == [pool[0]] + pool[1..];
  }

  lemma {:induction false} PoolPut(pool: seq<nat>, x: nat, conn: nat)
    ensures multiset(pool + [x])[conn] == multiset(pool)[conn] + if x == conn then 1 else 0
  {
  }

  /** newClient starts: fifty copies of a new connection are still to be pooled. */
  lemma DialKept(s: State, l: Act, conn: nat)
    requires Enabled(s, l) && CopiesInv(s, conn) && (l.Open? || l.Dial?)
    ensures CopiesInv(Do(s, l), conn)
  {
    if l.Open? {
      OneMore(CopyWeight(conn), s.calls, Filling(s.dialed, ExecutorConcurrency, false));
    } else {
      CopiesAfter(s.calls, l.i, Filling(s.dialed, ExecutorConcurrency, true), conn);
    }
  }

  lemma BorrowKept(s: State, i: nat, conn: nat)
    requires Enabled(s, Borrow(i)) && CopiesInv(s, conn)
    ensures CopiesInv(Do(s, Borrow(i)), conn)
  {
    CopiesAfter(s.calls, i, Using(s.pool[0]), conn);
    PoolTaken(s.pool, conn);
  }

  lemma FillKept(s: State, i: nat, conn: nat)
    requires Enabled(s, Fill(i)) && CopiesInv(s, conn)
    ensures CopiesInv(Do(s, Fill(i)), conn)
  {
    CopiesAfter(s.calls, i, s.calls[i].(left := s.calls[i].left - 1), conn);
    PoolPut(s.pool, s.calls[i].conn, conn);
  }

  lemma ReturnKept(s: State, i: nat, conn: nat)
    requires Enabled(s, Return(i)) && CopiesInv(s, conn)
    ensures CopiesInv(Do(s, Return(i)), conn)
  {
    CopiesAfter(s.calls, i, Ended, conn);
    PoolPut(s.pool, s.calls[i].conn, conn);
  }

  lemma StepKept(s: State, l: Act, conn: nat)
    requires Enabled(s, l) && CopiesInv(s, conn)
    ensures CopiesInv(Do(s, l), conn)
  {
    match l
    case Open => DialKept(s, l, conn);
    case Dial(_) => DialKept(s, l, conn);
    case Borrow(i) => BorrowKept(s, i, conn);
    case Fill(i) => FillKept(s, i, conn);
    case Return(i) => ReturnKept(s, i, conn);
    case Execute => OneMore(CopyWeight(conn), s.calls, Getting);
    case DialFail(i) => CopiesAfter(s.calls, i, Ended, conn);
    case Filled(i) => CopiesAfter(s.calls, i, if s.calls[i].thenUse then Blocked else Ended, conn);
  }

  lemma {:induction false} RunKept(s: State, run: seq<Act>, conn: nat)
    requires Legal(s, run) && CopiesInv(s, conn)
    ensures CopiesInv(Exec(s, run), conn)
    decreases |run|
  {
    if run != [] {
      StepKept(s, run[0], conn);
      RunKept(Do(s, run[0]), run[1..], conn);
    }
  }

  lemma {:induction false} NothingLeft(calls: seq<Point>, conn: nat)
    requires forall i | 0 <= i < |calls| :: !(calls[i].Filling? && calls[i].conn == conn && calls[i].left > 0)
    ensures Total(LeftWeight(conn), calls) == 0
  {
    if calls != [] {
      NothingLeft(calls[..|calls| - 1], conn);
    }
  }

  /** Pool conservation: pooled and borrowed copies of a connection never exceed 50, are exactly
      50 once its newClient has finished, and so no connection carries more than 50 calls. */
  lemma {:induction false} PoolConservation(run: seq<Act>, conn: nat)
    requires Legal(Init, run)
    ensures var s := Exec(Init, run);
      var copies := multiset(s.pool)[conn] + Total(UseWeight(conn), s.calls);
      && copies <= ExecutorConcurrency
      && (conn < s.dialed && !StillFilling(s, conn) ==> copies == ExecutorConcurrency)
      && Total(UseWeight(conn), s.calls) <= ExecutorConcurrency
  {
    RunKept(Init, run, conn);
    var s := Exec(Init, run);
    Apart(UseWeight(conn), LeftWeight(conn), CopyWeight(conn), s.calls);
    if !StillFilling(s, conn) {
      NothingLeft(s.calls, conn);
    }
  }

  // ----- progress

  /** Who waits for a copy has dialed a connection before. */
  predicate BlockedDialed(s: State) {
    forall i | 0 <= i < |s.calls| && (s.calls[i].Blocked? || s.calls[i].Filling?) :: s.dialed > 0
  }

  lemma {:induction false} BlockedKept(s: State, run: seq<Act>)
    requires Legal(s, run) && BlockedDialed(s)
    ensures BlockedDialed(Exec(s, run))
    decreases |run|
  {
    if run != [] {
      BlockedKept(Do(s, run[0]), run[1..]);
    }
  }

  lemma {:induction false} SomeCopy(calls: seq<Point>, conn: nat) returns (j: nat)
    requires Total(CopyWeight(conn), calls) > 0
    ensures j < |calls| && Copies(calls[j], conn) > 0
    decreases |calls|
  {
    if Copies(calls[|calls| - 1], conn) > 0 {
      j := |calls| - 1;
    } else {
      j := SomeCopy(calls[..|calls| - 1], conn);
    }
  }

  lemma OneAct(s: State, l: Act)
    requires Enabled(s, l)
    ensures Legal(s, [l]) && Exec(s, [l]) == Do(s, l)
  {
    assert [l][1..] == [];
    assert Legal(Do(s, l), []);
  }

  lemma TwoActs(s: State, l: Act, l': Act)
    requires Enabled(s, l) && Enabled(Do(s, l), l')
    ensures Legal(s, [l, l']) && Exec(s, [l, l']) == Do(Do(s, l), l')
  {
    assert [l, l'][1..] == [l'];
    OneAct(Do(s, l), l');
  }

  /** No starvation: a call that has dialed and waits for a copy can always get one, at once or
      after a single action of somebody else, who returns a borrowed copy or pools a new one. */
  lemma {:induction false} BlockedServed(run: seq<Act>, i: nat) returns (more: seq<Act>)
    requires Legal(Init, run) && i < |Exec(Init, run).calls| && Exec(Init, run).calls[i].Blocked?
    ensures |more| <= 2 && Legal(Exec(Init, run), more)
    ensures i < |Exec(Exec(Init, run), more).calls| && Exec(Exec(Init, run), more).calls[i].Using?
  {
    var s := Exec(Init, run);
    BlockedKept(Init, run);
    if s.pool != [] {
      more := [Borrow(i)];
      OneAct(s, Borrow(i));
    } else {
      RunKept(Init, run, 0);
      var j := SomeCopy(s.calls, 0);
      var l := if s.calls[j].Using? then Return(j) else Fill(j);
      more := [l, Borrow(i)];
      TwoActs(s, l, Borrow(i));
    }
  }

  // ----- one caller at a time

  /** newClient's loop, and its end. */
  function FillAll(s: State, i: nat): State
    requires i < |s.calls| && s.calls[i].Filling?
    decreases s.calls[i].left
  {
    if s.calls[i].left == 0 then Do(s, Filled(i)) else FillAll(Do(s, Fill(i)), i)
  }

  /** newClient for a call that found the pool empty. */
  function ClientMade(s: State, i: nat, dialErr: bool): State
    requires i < |s.calls| && s.calls[i].Getting?
  {
    if dialErr then Do(s, DialFail(i)) else FillAll(Do(s, Dial(i)), i)
  }

  lemma {:induction false} FillAllMeaning(s: State, i: nat)
    requires i < |s.calls| && s.calls[i].Filling?
    ensures var p := s.calls[i];
      FillAll(s, i) ==
      s.(pool := s.pool + seq(p.left, _ => p.conn), calls := s.calls[i := if p.thenUse then Blocked else Ended])
    decreases s.calls[i].left
  {
    var p := s.calls[i];
    if p.left == 0 {
      assert s.pool + seq(p.left, _ => p.conn) == s.pool;
    } else {
      var s' := Do(s, Fill(i));
      FillAllMeaning(s', i);
      assert s.pool + [p.conn] + seq(p.left - 1, _ => p.conn) == s.pool + seq(p.left, _ => p.conn);
      assert s'.calls[i := if p.thenUse then Blocked else Ended] == s.calls[i := if p.thenUse then Blocked else Ended];
    }
  }

  /** A call that found the pool empty can borrow once newClient is done. */
  lemma FilledCalls(s: State, i: nat)
    requires i < |s.calls| && s.calls[i].Getting?
    ensures ClientMade(s, i, false) ==
      s.(dialed := s.dialed + 1, pool := s.pool + seq(50, _ => s.dialed), calls := s.calls[i := Blocked])
  {
    FillAllMeaning(Do(s, Dial(i)), i);
    assert Do(s, Dial(i)).calls[i := Blocked] == s.calls[i := Blocked];
  }

  /** newGrpcBackend: fifty copies of a new connection are pooled, and the call is over. */
  lemma OpenMeaning(s: State)
    ensures FillAll(Do(s, Open), |s.calls|) ==
      s.(dialed := s.dialed + 1, pool := s.pool + seq(50, _ => s.dialed), calls := s.calls + [Ended])
  {
    FillAllMeaning(Do(s, Open), |s.calls|);
    assert Do(s, Open).calls[|s.calls| := Ended] == s.calls + [Ended];
  }

  /** How a remote call ends. */
  datatype CallEnd = Answered | DeadlineExceeded | Broken

  /** The backend object; its methods perform the actions of one call. */
  class GrpcBackend {
    var connectionPool: seq<nat>
    var dialed: nat

    ghost predicate Matches(s: State)
      reads this
    {
      s.pool == connectionPool && s.dialed == dialed
    }

    constructor ()
      ensures Matches(Init)
    {
      connectionPool, dialed := [], 0;
    }

    /** Fifty copies of one new connection are appended, or none if dialing fails. */
    method NewClient(dialErr: bool, ghost i: nat, ghost s0: State) returns (ok: bool, ghost s: State)
      requires Matches(s0) && i < |s0.calls| && s0.calls[i].Getting?
      modifies this
      ensures s == ClientMade(s0, i, dialErr) && Matches(s) && ok == !dialErr
      ensures ok ==> i < |s.calls| && s.calls[i] == Blocked
      ensures connectionPool == old(connectionPool) + if ok then seq(ExecutorConcurrency, _ => old(dialed)) else []
    {
      if dialErr {
        return false, Do(s0, DialFail(i));
      }
      var conn := dialed;
      dialed := dialed + 1;
      FillAllMeaning(Do(s0, Dial(i)), i);
      for n := 0 to ExecutorConcurrency
        invariant connectionPool == old(connectionPool) + seq(n, _ => conn)
        invariant dialed == old(dialed) + 1
      {
        connectionPool := connectionPool + [conn];
      }
      ok, s := true, ClientMade(s0, i, false);
    }

    /** A pooled copy is borrowed, or the first of the new ones. */
    method GetOrCreateClient(dialErr: bool, ghost i: nat, ghost s0: State) returns (conn: Option<nat>, ghost s: State)
      requires Matches(s0) && i < |s0.calls| && s0.calls[i].Getting?
      modifies this
      ensures Matches(s)
      ensures old(connectionPool) != [] ==> conn == Some(old(connectionPool)[0]) && s == Do(s0, Borrow(i))
      ensures old(connectionPool) == [] && !dialErr ==>
        var made := ClientMade(s0, i, false);
        conn == Some(old(dialed)) && Enabled(made, Borrow(i)) && s == Do(made, Borrow(i))
      ensures old(connectionPool) == [] && dialErr ==> conn == None && s == Do(s0, DialFail(i))
    {
      s := s0;
      if connectionPool == [] {
        var ok;
        ok, s := NewClient(dialErr, i, s0);
        if !ok {
          return None, s;
        }
      }
      conn := Some(connectionPool[0]);
      connectionPool := connectionPool[1..];
      s := Do(s, Borrow(i));
    }

    /** Execute: borrows a copy for one remote call and returns it to the end of the pool, whatever
        the call's end; the status says what went wrong first. */
    method Execute(dialErr: bool, end: CallEnd, ghost i: nat, ghost s0: State)
      returns (status: Gateway.Status, ghost s: State)
      requires Matches(s0) && i < |s0.calls| && s0.calls[i].Getting?
      modifies this
      ensures Matches(s) && |s.calls| == |s0.calls| && s.calls[i] == Ended
      ensures old(connectionPool) != [] ==> connectionPool == old(connectionPool)[1..] + [old(connectionPool)[0]]
      ensures old(connectionPool) == [] ==> connectionPool == if dialErr then [] else seq(50, _ => old(dialed))
      ensures status ==
        if old(connectionPool) == [] && dialErr then Gateway.FAIL_CONNECT
        else if end.DeadlineExceeded? then Gateway.FAIL_TIMEOUT
        else if end.Broken? then Gateway.FAIL_SEND
        else Gateway.SUCCESS
    {
      FilledCalls(s0, i);
      var conn;
      conn, s := GetOrCreateClient(dialErr, i, s0);
      if conn.None? {
        return Gateway.FAIL_CONNECT, s;
      }
      connectionPool := connectionPool + [conn.value];
      s := Do(s, Return(i));
      status := if end.DeadlineExceeded? then Gateway.FAIL_TIMEOUT else if end.Broken? then Gateway.FAIL_SEND else Gateway.SUCCESS;
    }
  }
}
