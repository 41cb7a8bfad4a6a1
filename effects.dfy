/** What a command does to the outside world, recorded in order: the calls it makes on the
    remote API and the notices it logs. */
module Effects {
  import opened Base

  /** The log entries whose presence matters (their exact wording is not modelled). */
  datatype Notice =
    | NoSites                                        // the fetched site list is empty
    | NoBackups(siteEnv: string, element: string)    // a finished-backups query returned nothing
    | CommitIgnored(siteEnv: string)                 // pending changes left out of a backup
    | CommitSkipped(siteEnv: string)                 // backup aborted because of pending changes
    | Created(siteEnv: string, what: Option<string>)     // a create call returned; the element, if one was named
    | Total(count: nat)                              // the closing count

  datatype Effect =
    | OwnerFilter(owner: string)                     // sites->filterByOwner
    | DiffStat(siteEnv: string)                      // env->diffstat(): pending changes inspected
    | Commit(siteEnv: string)                        // env->commitChanges()
    | Create(siteEnv: string, element: Option<string>, keepFor: Option<int>, awaited: bool)
                                                     // backups->create(options), awaited with wait() or not
    | Query(siteEnv: string, element: Option<string>)  // backups->getFinishedBackups(element)
    | Log(notice: Notice)

  /** How many create calls a trace holds. */
  function CountCreates(t: seq<Effect>): nat
    decreases |t|
  {
    if t == [] then 0 else (if t[0].Create? then 1 else 0) + CountCreates(t[1..])
  }

  /** How many backups a trace reports as aborted because of pending changes. */
  function CountSkips(t: seq<Effect>): nat
    decreases |t|
  {
    if t == [] then 0 else (if t[0].Log? && t[0].notice.CommitSkipped? then 1 else 0) + CountSkips(t[1..])
  }

  lemma {:induction false} CountsAppend(a: seq<Effect>, b: seq<Effect>)
    ensures CountCreates(a + b) == CountCreates(a) + CountCreates(b)
    ensures CountSkips(a + b) == CountSkips(a) + CountSkips(b)
    decreases |a|
  {
    if a != [] {
      assert (a + b)[0] == a[0];
      assert (a + b)[1..] == a[1..] + b;
      CountsAppend(a[1..], b);
    } else {
      assert a + b == b;
    }
  }

  /** A trace counts a create exactly when it holds one. */
  lemma {:induction false} CreateInCount(t: seq<Effect>)
    ensures CountCreates(t) > 0 <==> exists e :: e in t && e.Create?
    decreases |t|
  {
    if t != [] {
      CreateInCount(t[1..]);
      if e :| e in t && e.Create? {
        if !t[0].Create? {
          assert e in t[1..];
        }
      }
      if CountCreates(t[1..]) > 0 {
        var e :| e in t[1..] && e.Create?;
        assert e in t;
      }
    }
  }

  /** The pieces laid end to end. */
  function Concat<T>(xss: seq<seq<T>>): seq<T>
    decreases |xss|
  {
    if xss == [] then [] else Concat(xss[..|xss| - 1]) + xss[|xss| - 1]
  }

  lemma ConcatSnoc<T>(xss: seq<seq<T>>, ys: seq<T>)
    ensures Concat(xss + [ys]) == Concat(xss) + ys
  {
    assert (xss + [ys])[..|xss|] == xss;
  }

  lemma {:induction false} ConcatAppend<T>(xss: seq<seq<T>>, yss: seq<seq<T>>)
    ensures Concat(xss + yss) == Concat(xss) + Concat(yss)
    decreases |yss|
  {
    if yss == [] {
      assert xss + yss == xss;
    } else {
      var n := |yss| - 1;
      ConcatAppend(xss, yss[..n]);
      assert xss + yss == (xss + yss[..n]) + [yss[n]];
      ConcatSnoc(xss + yss[..n], yss[n]);
      assert yss == yss[..n] + [yss[n]];
      ConcatSnoc(yss[..n], yss[n]);
    }
  }

  lemma {:induction false} ConcatMembership<T>(xss: seq<seq<T>>, x: T)
    ensures x in Concat(xss) <==> exists k :: 0 <= k < |xss| && x in xss[k]
    decreases |xss|
  {
    if xss != [] {
      var n := |xss| - 1;
      ConcatMembership(xss[..n], x);
      if x in Concat(xss[..n]) {
        var k :| 0 <= k < n && x in xss[..n][k];
        assert x in xss[k];
      }
      if k :| 0 <= k < |xss| && x in xss[k] {
        if k < n {
          assert x in xss[..n][k];
        }
      }
    }
  }

  /** The output of a read command so far: report rows and the trace that produced them. */
  datatype Out<R> = Out(rows: seq<R>, trace: seq<Effect>)

  function Then<R>(a: Out<R>, b: Out<R>): Out<R> {
    Out(a.rows + b.rows, a.trace + b.trace)
  }

  function Flatten<R>(outs: seq<Out<R>>): Out<R>
    decreases |outs|
  {
    if outs == [] then Out([], []) else Then(Flatten(outs[..|outs| - 1]), outs[|outs| - 1])
  }

  lemma FlattenSnoc<R>(outs: seq<Out<R>>, o: Out<R>)
    ensures Flatten(outs + [o]) == Then(Flatten(outs), o)
  {
    assert (outs + [o])[..|outs|] == outs;
  }

  lemma ThenAssociative<R>(a: Out<R>, b: Out<R>, c: Out<R>)
    ensures Then(Then(a, b), c) == Then(a, Then(b, c))
  {
    assert (a.rows + b.rows) + c.rows == a.rows + (b.rows + c.rows);
    assert (a.trace + b.trace) + c.trace == a.trace + (b.trace + c.trace);
  }

  lemma {:induction false} FlattenAppend<R>(a: seq<Out<R>>, b: seq<Out<R>>)
    ensures Flatten(a + b) == Then(Flatten(a), Flatten(b))
    decreases |b|
  {
    if b == [] {
      assert a + b == a;
      assert Then(Flatten(a), Out([], [])) == Flatten(a);
    } else {
      var n := |b| - 1;
      FlattenAppend(a, b[..n]);
      assert a + b == (a + b[..n]) + [b[n]];
      FlattenSnoc(a + b[..n], b[n]);
      assert b == b[..n] + [b[n]];
      FlattenSnoc(b[..n], b[n]);
      ThenAssociative(Flatten(a), Flatten(b[..n]), b[n]);
    }
  }

  lemma {:induction false} FlattenMembership<R>(outs: seq<Out<R>>, r: R, e: Effect)
    ensures r in Flatten(outs).rows <==> exists k :: 0 <= k < |outs| && r in outs[k].rows
    ensures e in Flatten(outs).trace <==> exists k :: 0 <= k < |outs| && e in outs[k].trace
    decreases |outs|
  {
    if outs != [] {
      var n := |outs| - 1;
      FlattenMembership(outs[..n], r, e);
      if r in Flatten(outs[..n]).rows {
        var k :| 0 <= k < n && r in outs[..n][k].rows;
        assert r in outs[k].rows;
      }
      if e in Flatten(outs[..n]).trace {
        var k :| 0 <= k < n && e in outs[..n][k].trace;
        assert e in outs[k].trace;
      }
      if k :| 0 <= k < |outs| && r in outs[k].rows {
        if k < n { assert r in outs[..n][k].rows; }
      }
      if k :| 0 <= k < |outs| && e in outs[k].trace {
        if k < n { assert e in outs[..n][k].trace; }
      }
    }
  }

  /** What a read command hands back: the error it raised, if any; the rows it returns,
      which it returns only when there are some; and its trace. */
  datatype Report<R> = Report(failure: Option<Failure>, rows: Option<seq<R>>, trace: seq<Effect>)

  /** What a create command leaves behind: its trace and the error that ended it, if any. */
  datatype Run = Run(trace: seq<Effect>, failure: Option<Failure>)

  /** A run that had already done `t` before `r`. */
  function Prepend(t: seq<Effect>, r: Run): Run {
    Run(t + r.trace, r.failure)
  }
}
