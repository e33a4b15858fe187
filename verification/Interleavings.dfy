/** A worker's grant or revoke while other sessions create tables between its statements. */
module Interleavings {
  import opened Base
  import opened Api
  import opened Protocol
  import opened Undisturbed
  import PG = Postgres
  import Grants

  /** Before each statement, and after the last one, tables appear in schema n; the worker's steps are undisturbed
      otherwise. */
  function Interleaved(w: World, key: Key, conn: PG.Conn, n: PG.Name, gaps: seq<seq<PG.Name>>): World
    requires gaps != []
    decreases |gaps|
  {
    var w1 := Step(w, Sessions(Grants.Meanwhile(w.c.server, conn, n, gaps[0])));
    if |gaps| == 1 || !PhaseOf(w, key).Sql? then w1
    else Interleaved(Step(w1, Work(key, Normal)), key, conn, n, gaps[1..])
  }

  /** The worker is past its SQL program, and not because of an error. */
  predicate IsPast(ph: Phase) {
    match ph
    case Store(_) => true
    case Report(_, ok, _) => ok
    case Release(_, _) => true
    case _ => false
  }

  /** Such a run of the worker is the run of its statements with gaps, and it gets past them exactly when every
      statement went through. */
  lemma {:induction false} InterleavedIsExecWith(
    w: World, key: Key, cr: Object, conn: PG.Conn, stmts: seq<PG.Stmt>, log: seq<Event>, n: PG.Name, gaps: seq<seq<PG.Name>>)
    requires PhaseOf(w, key) == Sql(cr, conn, Run(stmts), log) && |log| < |stmts|
    requires |gaps| == |stmts| - |log| + 1
    ensures var end := Interleaved(w, key, conn, n, gaps);
            var r := Grants.ExecWith(w.c.server, conn, n, stmts[|log|..], gaps);
            && (IsPast(PhaseOf(end, key)) <==> r.Some?)
            && (r.Some? ==> end.c.server == r.value)
    decreases |gaps|
  {
    hide WorkStep, PG.Exec, Grants.Meanwhile, Next;
    var s1 := Grants.Meanwhile(w.c.server, conn, n, gaps[0]);
    var w1 := Step(w, Sessions(s1));
    var stmt := stmts[|log|];
    var log' := log + [Ran(stmt)];
    assert stmts[|log|..][1..] == stmts[|log'|..];
    NextIs(stmts, log);
    RunMoves(w1, key, cr, conn, Run(stmts), log, stmt);
    var w2 := Step(w1, Work(key, Normal));
    var x := PG.Exec(s1, conn, stmt);
    if x.None? {
      assert |gaps[1..]| >= 1;
      StoppedIsNotPast(w2, key, cr, conn, n, gaps[1..]);
    } else if |log'| < |stmts| {
      NextIs(stmts, log');
      InterleavedIsExecWith(w2, key, cr, conn, stmts, log', n, gaps[1..]);
    } else {
      NextIs(stmts, log');
      assert gaps[1..] == [gaps[1]];
      assert stmts[|log'|..] == [];
      var s2 := Grants.Meanwhile(x.value, conn, n, gaps[1]);
      assert Grants.ExecWith(x.value, conn, n, [], gaps[1..]) == Some(s2);
    }
  }

  lemma NextIs(stmts: seq<PG.Stmt>, log: seq<Event>)
    ensures Next(Run(stmts), log) == if |log| < |stmts| then RunOp(stmts[|log|]) else Finished
  {
  }

  lemma StoppedIsNotPast(w: World, key: Key, cr: Object, conn: PG.Conn, n: PG.Name, gaps: seq<seq<PG.Name>>)
    requires PhaseOf(w, key) == Fail(cr, SqlFailed) && gaps != []
    ensures !IsPast(PhaseOf(Interleaved(w, key, conn, n, gaps), key))
  {
  }

  /** A worker that gets through its grant has covered every table of the schema but those created between its
      second and third statement under defaults that did not cover the role. */
  lemma GrantRunCovers(w: World, key: Key, cr: Object, g: Grants.GrantOpts, gaps: seq<seq<PG.Name>>)
    requires PhaseOf(w, key) == Sql(cr, PG.Conn(g.database), Run(Grants.GrantStmts(g)), []) && |gaps| == 6
    requires IsPast(PhaseOf(Interleaved(w, key, PG.Conn(g.database), g.schema, gaps), key))
    ensures PG.HasSchema(w.c.server, g.database, g.schema)
    ensures var end := Interleaved(w, key, PG.Conn(g.database), g.schema, gaps).c.server;
            && PG.HasSchema(end, g.database, g.schema)
            && var x := PG.SchemaAt(w.c.server, g.database, g.schema);
            var y := PG.SchemaAt(end, g.database, g.schema);
            forall t :: t in y.tables ==>
              (!Grants.Covers(y.tables[t].acl, g.role) <==>
               t in gaps[2] && t !in x.tables && t !in gaps[0] && t !in gaps[1] && !Grants.Covers(x.defaults, g.role))
  {
    var stmts := Grants.GrantStmts(g);
    InterleavedIsExecWith(w, key, cr, PG.Conn(g.database), stmts, [], g.schema, gaps);
    assert stmts[0..] == stmts;
    Grants.GrantCoverage(w.c.server, g, gaps);
  }

  /** A worker that gets through its revoke has left no entry of the role on the schema's tables and defaults. */
  lemma RevokeRunLeavesNothing(w: World, key: Key, cr: Object, g: Grants.GrantOpts, gaps: seq<seq<PG.Name>>)
    requires PhaseOf(w, key) == Sql(cr, PG.Conn(g.database), Run(Grants.RevokeStmts(g)), []) && |gaps| == 5
    requires PG.WellTyped(w.c.server)
    requires IsPast(PhaseOf(Interleaved(w, key, PG.Conn(g.database), g.schema, gaps), key))
    ensures var end := Interleaved(w, key, PG.Conn(g.database), g.schema, gaps).c.server;
            && PG.HasSchema(end, g.database, g.schema)
            && var y := PG.SchemaAt(end, g.database, g.schema);
            && Grants.Of(y.defaults, g.role) == {}
            && forall t :: t in y.tables ==> Grants.Of(y.tables[t].acl, g.role) == {}
  {
    var stmts := Grants.RevokeStmts(g);
    InterleavedIsExecWith(w, key, cr, PG.Conn(g.database), stmts, [], g.schema, gaps);
    assert stmts[0..] == stmts;
    Grants.RevokeLeavesNothing(w.c.server, g, gaps);
  }
}
