/**
  * What RelationalCrawler.run guarantees across passes: the marts it keeps between
  * batches, when it merges and when it flushes, what a pending reset does, when the run
  * gets to write every table, and what ends up in the object store.
  */
module RunProperties {
  import opened Wrappers
  import opened Text
  import opened Dedup
  import opened Records
  import opened Normalizer
  import opened Accumulator
  import opened S3
  import opened Crawler

  /**
    * The locals between passes: the three dimension marts are bound together, and with
    * them the event mart; every bound mart has unique keys, the app mart's cells lie in
    * its columns and every event row carries an AppID.
    */
  predicate MartsValid(s: RunState) {
    (s.device.Some? <==> s.app.Some?) && (s.app.Some? <==> s.ip.Some?)
    && (s.device.Some? ==> s.event.Some?)
    && (s.device.Some? ==> UniqueKeys(s.device.value, DeviceKey))
    && (s.app.Some? ==> UniqueKeys(s.app.value.rows, AppKey) && CellsInColumns(s.app.value))
    && (s.ip.Some? ==> UniqueKeys(s.ip.value, IpKey))
    && (s.event.Some? ==> EventsResolved(s.event.value))
  }

  /** The else branch, on a valid partition, keeps the marts valid. */
  lemma AccumulateKeepsMartsValid(env: Env, s: RunState, p: Parts)
    requires MartsValid(s) && PartsValid(p)
    ensures MartsValid(Accumulate(env, s, p))
  {
    if s.device.Some? {
      MergeDevicesSpec(s.device.value, p.devices);
      MergeAppsSpec(s.app.value, p.apps);
      MergeIpsSpec(s.ip.value, p.ips);
      MergeEventsResolved(s.event.value, p.events);
    }
  }

  /** Absorbing a valid partition keeps the marts valid. */
  lemma AbsorbKeepsMartsValid(env: Env, s: RunState, i: nat, p: Parts)
    requires MartsValid(s) && PartsValid(p)
    ensures MartsValid(Absorb(env, s, i, p))
  {
    var s1 := (if s.flag == 1 then s.(event := Some(p.events)) else s).(flag := 0);
    assert MartsValid(s1);
    if i != 0 {
      assert Absorb(env, s, i, p) == Accumulate(env, s1, p);
      AccumulateKeepsMartsValid(env, s1, p);
    }
  }

  /** A pass keeps the marts valid, whether it skips, initialises, merges or flushes. */
  lemma IterationKeepsMartsValid(env: Env, s: RunState, i: nat, key: string)
    requires MartsValid(s)
    ensures MartsValid(Iteration(env, s, i, key))
  {
    match env.read(env.bucket, key)
    case None =>
    case Some(batch) =>
      PartitionSpec(batch, env.iab, env.hash);
      match PartitionOf(batch, env.iab, env.hash)
      case Err(_) =>
      case Ok(p) => AbsorbKeepsMartsValid(env, s, i, p);
  }

  /** The marts are valid after any number of passes from a valid state. */
  lemma {:induction false} LoopKeepsMartsValid(env: Env, s: RunState, keys: seq<string>, n: nat)
    requires n <= |keys|
    requires MartsValid(s)
    ensures MartsValid(Loop(env, s, keys, n))
  {
    if n > 0 {
      LoopKeepsMartsValid(env, s, keys, n - 1);
      IterationKeepsMartsValid(env, Loop(env, s, keys, n - 1), n - 1, keys[n - 1]);
    }
  }

  /** An unreadable or unpartitionable batch is skipped without any effect. */
  lemma SkippedBatch(env: Env, s: RunState, i: nat, key: string)
    requires BatchFails(env, key)
    ensures Iteration(env, s, i, key) == s
  {
  }

  /** The else branch stores nothing and draws nothing, or it is a flush. */
  lemma AccumulateLog(env: Env, s: RunState, p: Parts)
    ensures var r := Accumulate(env, s, p);
            (r.draws == s.draws && r.puts == s.puts)
            || (r.draws == s.draws + 1 && r.flag == 1
                && r.device.Some? && r.app.Some? && r.ip.Some? && r.event.Some?
                && r.puts == Flushed(env, s.puts, s.draws, r.event.value, r.device.value,
                                     r.app.value, r.ip.value))
  {
  }

  /**
    * A partitioned batch either stores nothing and draws no random number, or is a
    * flush: it draws one number, sets the reset flag and stores the event mart and the
    * three dimension marts it leaves behind.
    */
  lemma AbsorbLog(env: Env, s: RunState, i: nat, p: Parts)
    ensures var r := Absorb(env, s, i, p);
            (r.draws == s.draws && r.puts == s.puts)
            || (r.draws == s.draws + 1 && r.flag == 1
                && r.device.Some? && r.app.Some? && r.ip.Some? && r.event.Some?
                && r.puts == Flushed(env, s.puts, s.draws, r.event.value, r.device.value,
                                     r.app.value, r.ip.value))
  {
    var s1 := (if s.flag == 1 then s.(event := Some(p.events)) else s).(flag := 0);
    assert s1.puts == s.puts && s1.draws == s.draws;
    if i != 0 {
      assert Absorb(env, s, i, p) == Accumulate(env, s1, p);
      AccumulateLog(env, s1, p);
    }
  }

  /** A pass stores nothing and draws nothing, or it is a flush. */
  lemma IterationLog(env: Env, s: RunState, i: nat, key: string)
    ensures var r := Iteration(env, s, i, key);
            (r.draws == s.draws && r.puts == s.puts)
            || (r.draws == s.draws + 1 && r.flag == 1
                && r.device.Some? && r.app.Some? && r.ip.Some? && r.event.Some?
                && r.puts == Flushed(env, s.puts, s.draws, r.event.value, r.device.value,
                                     r.app.value, r.ip.value))
  {
    match env.read(env.bucket, key)
    case None =>
    case Some(batch) =>
      match PartitionOf(batch, env.iab, env.hash)
      case Err(_) =>
      case Ok(p) => AbsorbLog(env, s, i, p);
  }

  /**
    * On a later batch with every mart bound and no reset pending, the dimension marts
    * are merged first; the byte estimate of the accumulated events, before this batch's
    * events are added, decides between merging them and flushing. A flush stores the
    * accumulated events, not this batch's, next to the merged dimension marts.
    */
  lemma MergeOrFlush(env: Env, s: RunState, i: nat, key: string, batch: Batch)
    requires i > 0 && env.read(env.bucket, key) == Some(batch)
    requires PartitionOf(batch, env.iab, env.hash).Ok?
    requires s.flag != 1 && s.device.Some? && s.app.Some? && s.ip.Some? && s.event.Some?
    ensures var p := PartitionOf(batch, env.iab, env.hash).value;
            var r := Iteration(env, s, i, key);
            r.device == Some(MergeDevices(s.device.value, p.devices))
            && r.app == Some(MergeApps(s.app.value, p.apps))
            && r.ip == Some(MergeIps(s.ip.value, p.ips))
            && (env.bytes(s.event.value) <= env.thresh ==>
                  r.event == Some(MergeEvents(s.event.value, p.events))
                  && r.flag == 0 && r.draws == s.draws && r.puts == s.puts)
            && (env.bytes(s.event.value) > env.thresh ==>
                  r.event == s.event && r.flag == 1 && r.draws == s.draws + 1
                  && r.puts == Flushed(env, s.puts, s.draws, s.event.value,
                                       MergeDevices(s.device.value, p.devices),
                                       MergeApps(s.app.value, p.apps), MergeIps(s.ip.value, p.ips)))
  {
    var p := PartitionOf(batch, env.iab, env.hash).value;
    assert Iteration(env, s, i, key) == Absorb(env, s, i, p);
    var s1 := s.(flag := 0);
    assert Absorb(env, s, i, p) == Accumulate(env, s1, p);
  }

  /**
    * The batch after a flush replaces the event mart: the flushed rows are dropped and
    * the batch's own events, merged with themselves, are all that is kept; should they
    * alone be over the threshold, they are flushed at once and the reset stays pending.
    */
  lemma ResetAfterFlush(env: Env, s: RunState, i: nat, key: string, batch: Batch)
    requires i > 0 && env.read(env.bucket, key) == Some(batch)
    requires PartitionOf(batch, env.iab, env.hash).Ok?
    requires s.flag == 1 && s.device.Some? && s.app.Some? && s.ip.Some?
    ensures var p := PartitionOf(batch, env.iab, env.hash).value;
            var r := Iteration(env, s, i, key);
            (env.bytes(p.events) <= env.thresh ==>
               r.event == Some(DedupBy(p.events, Id)) && r.flag == 0 && r.puts == s.puts)
            && (env.bytes(p.events) > env.thresh ==>
                  r.event == Some(p.events) && r.flag == 1 && r.draws == s.draws + 1
                  && r.puts == Flushed(env, s.puts, s.draws, p.events,
                                       MergeDevices(s.device.value, p.devices),
                                       MergeApps(s.app.value, p.apps), MergeIps(s.ip.value, p.ips)))
  {
    var p := PartitionOf(batch, env.iab, env.hash).value;
    assert Iteration(env, s, i, key) == Absorb(env, s, i, p);
    var s1 := s.(event := Some(p.events)).(flag := 0);
    assert Absorb(env, s, i, p) == Accumulate(env, s1, p);
    MergeEventsSelf(p.events);
  }

  /** The else branch never unbinds a mart. */
  lemma AccumulateKeepsBound(env: Env, s: RunState, p: Parts)
    ensures var r := Accumulate(env, s, p);
            (s.device.Some? ==> r.device.Some?) && (s.event.Some? ==> r.event.Some?)
  {
  }

  /** A pass never unbinds a mart. */
  lemma IterationKeepsBound(env: Env, s: RunState, i: nat, key: string)
    ensures var r := Iteration(env, s, i, key);
            (s.device.Some? ==> r.device.Some?) && (s.event.Some? ==> r.event.Some?)
  {
    var batch := env.read(env.bucket, key);
    if batch.Some? && PartitionOf(batch.value, env.iab, env.hash).Ok? {
      var p := PartitionOf(batch.value, env.iab, env.hash).value;
      assert Iteration(env, s, i, key) == Absorb(env, s, i, p);
      var s1 := (if s.flag == 1 then s.(event := Some(p.events)) else s).(flag := 0);
      if i != 0 {
        assert Absorb(env, s, i, p) == Accumulate(env, s1, p);
        AccumulateKeepsBound(env, s1, p);
      }
    }
  }

  /**
    * While the device mart is unbound, a later pass can neither bind it nor store
    * anything: the first merge raises NameError.
    */
  lemma UnboundStaysUnbound(env: Env, s: RunState, i: nat, key: string)
    requires i > 0 && s.device.None? && s.app.None? && s.ip.None?
    ensures var r := Iteration(env, s, i, key);
            r.device.None? && r.app.None? && r.ip.None? && r.draws == s.draws && r.puts == s.puts
  {
  }

  /**
    * When the first batch fails, no pass ever binds the dimension marts or stores
    * anything after the IAB table.
    */
  lemma {:induction false} FirstBatchFails(env: Env, keys: seq<string>, n: nat, flag: int,
                                           stored: seq<Put<Table>>)
    requires 0 < n <= |keys| && BatchFails(env, keys[0])
    ensures var r := Loop(env, Start(env, flag, stored), keys, n);
            r.device.None? && r.app.None? && r.ip.None? && r.draws == 0
            && r.puts == Start(env, flag, stored).puts
  {
    if n == 1 {
      SkippedBatch(env, Start(env, flag, stored), 0, keys[0]);
    } else {
      FirstBatchFails(env, keys, n - 1, flag, stored);
      UnboundStaysUnbound(env, Loop(env, Start(env, flag, stored), keys, n - 1), n - 1, keys[n - 1]);
    }
  }

  /** When the first batch succeeds, every mart is bound after each pass. */
  lemma {:induction false} FirstBatchSucceeds(env: Env, keys: seq<string>, n: nat, flag: int,
                                              stored: seq<Put<Table>>)
    requires 0 < n <= |keys| && !BatchFails(env, keys[0])
    ensures var r := Loop(env, Start(env, flag, stored), keys, n);
            r.device.Some? && r.app.Some? && r.ip.Some? && r.event.Some? && MartsValid(r)
  {
    LoopKeepsMartsValid(env, Start(env, flag, stored), keys, n);
    if n > 1 {
      FirstBatchSucceeds(env, keys, n - 1, flag, stored);
      IterationKeepsBound(env, Loop(env, Start(env, flag, stored), keys, n - 1), n - 1, keys[n - 1]);
    }
  }

  /**
    * With valid marts the final writes are all or nothing: either every mart is bound
    * and the run completes, or the device mart is unbound, the first write raises
    * NameError and nothing changes.
    */
  lemma FinalAllOrNothing(env: Env, s: RunState)
    requires MartsValid(s)
    ensures Final(env, s).completed <==> s.device.Some?
    ensures !Final(env, s).completed ==> Final(env, s).state == s
  {
  }

  /**
    * run gets through its final writes exactly when its sample holds at least one
    * batch and the first batch can be read and partitioned; otherwise the IAB table is
    * all it stores.
    */
  lemma RunCompletes(env: Env, keys: seq<string>, sample: Option<int>, flag: int,
                     stored: seq<Put<Table>>)
    ensures var n := SliceLength(|keys|, sample);
            RunSpec(env, keys, sample, flag, stored).completed <==> n > 0 && !BatchFails(env, keys[0])
    ensures !RunSpec(env, keys, sample, flag, stored).completed ==>
              RunSpec(env, keys, sample, flag, stored).state.puts
              == stored + Write(env, IabCodes(env.iab), IabObject, IabPath)
  {
    var n := SliceLength(|keys|, sample);
    var r := Loop(env, Start(env, flag, stored), keys, n);
    LoopKeepsMartsValid(env, Start(env, flag, stored), keys, n);
    FinalAllOrNothing(env, r);
    if n > 0 {
      if BatchFails(env, keys[0]) {
        FirstBatchFails(env, keys, n, flag, stored);
      } else {
        FirstBatchSucceeds(env, keys, n, flag, stored);
      }
    }
  }

  /**
    * With every mart bound and a bucket, the final writes add four objects after the
    * existing ones, the last of them the event mart under a fresh random name.
    */
  lemma FinalLog(env: Env, s: RunState)
    requires env.bucket.Some? && s.device.Some? && s.app.Some? && s.ip.Some? && s.event.Some?
    ensures var out := Final(env, s).state.puts;
            Final(env, s).completed && |out| == |s.puts| + 4 && out[..|s.puts|] == s.puts
            && out[|out| - 1] == Put(env.bucket.value,
                                     ObjectKey(env.eventPath, EventObject(env.rand(s.draws)), ParquetExtension),
                                     Events(s.event.value))
  {
    var wd := Write(env, Devices(s.device.value), DeviceObject, env.resourcePath);
    var wa := Write(env, Apps(s.app.value), AppObject, env.resourcePath);
    var wi := Write(env, Ips(s.ip.value), IpObject, env.resourcePath);
    var we := Write(env, Events(s.event.value), EventObject(env.rand(s.draws)), env.eventPath);
    assert Final(env, s).state.puts == s.puts + wd + wa + wi + we;
    FourSingleAppends(s.puts, wd, wa, wi, we);
  }

  /** Four one-element appends keep the prefix and end with the last element. */
  lemma FourSingleAppends<T>(a: seq<T>, w1: seq<T>, w2: seq<T>, w3: seq<T>, w4: seq<T>)
    requires |w1| == 1 && |w2| == 1 && |w3| == 1 && |w4| == 1
    ensures var x := a + w1 + w2 + w3 + w4;
            |x| == |a| + 4 && x[..|a|] == a && x[|x| - 1] == w4[0]
  {
    var x := a + w1 + w2 + w3 + w4;
    assert x[..|a|] == a;
  }

  /**
    * When a pass flushes and the run ends before another batch succeeds, the final
    * writes store the flushed event table a second time, under a second random name.
    */
  lemma FlushedEventsWrittenAgain(env: Env, s: RunState, i: nat, key: string)
    requires env.bucket.Some? && MartsValid(s)
    requires Iteration(env, s, i, key).draws == s.draws + 1
    ensures var r := Iteration(env, s, i, key);
            var out := Final(env, r);
            r.event.Some? && out.completed && |s.puts| < |out.state.puts|
            && out.state.puts[|s.puts|].body == Events(r.event.value)
            && out.state.puts[|out.state.puts| - 1].body == Events(r.event.value)
            && out.state.puts[|s.puts|].key
               == ObjectKey(env.eventPath, EventObject(env.rand(s.draws)), ParquetExtension)
            && out.state.puts[|out.state.puts| - 1].key
               == ObjectKey(env.eventPath, EventObject(env.rand(s.draws + 1)), ParquetExtension)
  {
    var r := Iteration(env, s, i, key);
    IterationLog(env, s, i, key);
    FinalLog(env, r);
    var out := Final(env, r).state.puts;
    var events := Write(env, Events(r.event.value), EventObject(env.rand(s.draws)), env.eventPath);
    assert r.puts[|s.puts|] == events[0];
    assert out[|s.puts|] == r.puts[|s.puts|];
  }

  // ---------------------------------------------------------------------------
  // The object store

  /** A put of the crawler: to the helper's bucket, a .parquet key under one of its paths. */
  predicate CrawlerPut(env: Env, put: Put<Table>) {
    env.bucket.Some? && put.bucket == env.bucket.value && EndsWith(put.key, ParquetExtension)
    && (IabPath <= put.key || env.resourcePath <= put.key || env.eventPath <= put.key)
  }

  /** log keeps every object of stored, in order, and adds only crawler puts. */
  predicate StoredAfter(env: Env, stored: seq<Put<Table>>, log: seq<Put<Table>>) {
    |stored| <= |log| && log[..|stored|] == stored
    && forall k :: |stored| <= k < |log| ==> CrawlerPut(env, log[k])
  }

  lemma StoredAfterWrite(env: Env, stored: seq<Put<Table>>, log: seq<Put<Table>>, body: Table,
                         objectName: string, path: string)
    requires StoredAfter(env, stored, log)
    requires path == IabPath || path == env.resourcePath || path == env.eventPath
    ensures StoredAfter(env, stored, log + Write(env, body, objectName, path))
  {
    var w := Write(env, body, objectName, path);
    assert (log + w)[..|stored|] == log[..|stored|];
    if |w| == 1 {
      assert (log + w)[|log|] == w[0];
    }
  }

  lemma IterationStores(env: Env, stored: seq<Put<Table>>, s: RunState, i: nat, key: string)
    requires StoredAfter(env, stored, s.puts)
    ensures StoredAfter(env, stored, Iteration(env, s, i, key).puts)
  {
    var r := Iteration(env, s, i, key);
    IterationLog(env, s, i, key);
    if r.puts != s.puts {
      var l1 := s.puts + Write(env, Events(r.event.value), EventObject(env.rand(s.draws)), env.eventPath);
      var l2 := l1 + Write(env, Devices(r.device.value), DeviceObject, env.resourcePath);
      var l3 := l2 + Write(env, Apps(r.app.value), AppObject, env.resourcePath);
      StoredAfterWrite(env, stored, s.puts, Events(r.event.value), EventObject(env.rand(s.draws)), env.eventPath);
      StoredAfterWrite(env, stored, l1, Devices(r.device.value), DeviceObject, env.resourcePath);
      StoredAfterWrite(env, stored, l2, Apps(r.app.value), AppObject, env.resourcePath);
      StoredAfterWrite(env, stored, l3, Ips(r.ip.value), IpObject, env.resourcePath);
    }
  }

  lemma {:induction false} LoopStores(env: Env, stored: seq<Put<Table>>, s: RunState,
                                      keys: seq<string>, n: nat)
    requires n <= |keys|
    requires StoredAfter(env, stored, s.puts)
    ensures StoredAfter(env, stored, Loop(env, s, keys, n).puts)
  {
    if n > 0 {
      LoopStores(env, stored, s, keys, n - 1);
      IterationStores(env, stored, Loop(env, s, keys, n - 1), n - 1, keys[n - 1]);
    }
  }

  lemma FinalStores(env: Env, stored: seq<Put<Table>>, s: RunState)
    requires StoredAfter(env, stored, s.puts)
    ensures StoredAfter(env, stored, Final(env, s).state.puts)
  {
    if s.device.Some? {
      var l1 := s.puts + Write(env, Devices(s.device.value), DeviceObject, env.resourcePath);
      StoredAfterWrite(env, stored, s.puts, Devices(s.device.value), DeviceObject, env.resourcePath);
      if s.app.Some? {
        var l2 := l1 + Write(env, Apps(s.app.value), AppObject, env.resourcePath);
        StoredAfterWrite(env, stored, l1, Apps(s.app.value), AppObject, env.resourcePath);
        if s.ip.Some? {
          var l3 := l2 + Write(env, Ips(s.ip.value), IpObject, env.resourcePath);
          StoredAfterWrite(env, stored, l2, Ips(s.ip.value), IpObject, env.resourcePath);
          if s.event.Some? {
            StoredAfterWrite(env, stored, l3, Events(s.event.value), EventObject(env.rand(s.draws)),
                             env.eventPath);
          }
        }
      }
    }
  }

  /**
    * run keeps what the store held and adds only .parquet objects in the helper's bucket
    * under the IAB, resource or event path; a helper without a bucket stores nothing.
    */
  lemma RunStoresParquet(env: Env, keys: seq<string>, sample: Option<int>, flag: int,
                         stored: seq<Put<Table>>)
    ensures StoredAfter(env, stored, RunSpec(env, keys, sample, flag, stored).state.puts)
    ensures env.bucket.None? ==> RunSpec(env, keys, sample, flag, stored).state.puts == stored
  {
    assert StoredAfter(env, stored, stored);
    StoredAfterWrite(env, stored, stored, IabCodes(env.iab), IabObject, IabPath);
    var n := SliceLength(|keys|, sample);
    LoopStores(env, stored, Start(env, flag, stored), keys, n);
    var r := Loop(env, Start(env, flag, stored), keys, n);
    FinalStores(env, stored, r);
    var log := Final(env, r).state.puts;
    assert |stored| < |log| ==> CrawlerPut(env, log[|stored|]);
    assert |log| <= |stored| ==> log == log[..|stored|];
  }
}
