/**
  * RelationalCrawler.run: the loop that reads the listed batches, partitions each into
  * the four relational tables, accumulates them, flushes the event table whenever its
  * byte estimate is over the threshold, and writes every table at the end.
  */
module Crawler {
  import opened Wrappers
  import opened Text
  import opened Dedup
  import opened Records
  import opened Normalizer
  import opened Accumulator
  import opened S3

  const IabObject: string := "IAB_DM"
  const IabPath: string := "relational/resources/"
  const DeviceObject: string := "DEVICE_DM"
  const AppObject: string := "APP_DM"
  const IpObject: string := "IP_DM"
  const EventPrefix: string := "EVENT_DM_"

  /** The tables the crawler hands to write_parquet. */
  datatype Table =
    | IabCodes(codes: map<string, string>)
    | Devices(devices: seq<DeviceRow>)
    | Apps(apps: AppTable)
    | Ips(ips: seq<IpRow>)
    | Events(events: seq<EventRow>)

  /**
    * What run depends on: read_parquet of an object in a bucket (None when it raises),
    * the IAB code mapping, Python's salted hash, the memory_usage byte estimate of an
    * event table, the successive getrandbits(64) draws, the helper's bucket, and the
    * run's paths and byte threshold.
    */
  datatype Env = Env(
    read: (Option<string>, string) -> Option<Batch>,
    iab: map<string, string>,
    hash: string -> int,
    bytes: seq<EventRow> -> int,
    rand: nat -> nat,
    bucket: Option<string>,
    eventPath: string,
    resourcePath: string,
    thresh: int)

  /**
    * The locals of run between iterations: the four marts (None while the Python name is
    * unbound), the flag, the number of random draws so far and the objects stored.
    */
  datatype RunState = RunState(
    device: Option<seq<DeviceRow>>,
    app: Option<AppTable>,
    ip: Option<seq<IpRow>>,
    event: Option<seq<EventRow>>,
    flag: int,
    draws: nat,
    puts: seq<Put<Table>>)

  datatype Outcome = Outcome(state: RunState, completed: bool)

  /** The name of a flushed or final event table: EVENT_DM_ and a random number. */
  function EventObject(draw: nat): string {
    EventPrefix + NatToString(draw)
  }

  /** One write_parquet call of the crawler, which never passes a bucket argument. */
  function Write(env: Env, body: Table, objectName: string, path: string): seq<Put<Table>> {
    WritePuts(env.bucket, None, path, objectName, ParquetExtension, body)
  }

  /** The object log after a flush: the event table, then the three dimension tables. */
  function Flushed(env: Env, stored: seq<Put<Table>>, draw: nat, event: seq<EventRow>,
                   device: seq<DeviceRow>, app: AppTable, ip: seq<IpRow>): seq<Put<Table>> {
    stored
    + Write(env, Events(event), EventObject(env.rand(draw)), env.eventPath)
    + Write(env, Devices(device), DeviceObject, env.resourcePath)
    + Write(env, Apps(app), AppObject, env.resourcePath)
    + Write(env, Ips(ip), IpObject, env.resourcePath)
  }

  /**
    * The else branch for i > 0: merge each dimension mart (stopping at an unbound one,
    * a NameError), then test the byte estimate of the accumulated events before merging
    * this batch's events, and flush instead of merging when it is over the threshold.
    */
  function Accumulate(env: Env, s: RunState, p: Parts): RunState {
    if s.device.None? then s
    else
      var s1 := s.(device := Some(MergeDevices(s.device.value, p.devices)));
      if s1.app.None? then s1
      else
        var s2 := s1.(app := Some(MergeApps(s1.app.value, p.apps)));
        if s2.ip.None? then s2
        else
          var s3 := s2.(ip := Some(MergeIps(s2.ip.value, p.ips)));
          if s3.event.None? then s3
          else if env.bytes(s3.event.value) <= env.thresh then
            s3.(event := Some(MergeEvents(s3.event.value, p.events)))
          else
            s3.(puts := Flushed(env, s3.puts, s3.draws, s3.event.value, s3.device.value,
                                s3.app.value, s3.ip.value),
                draws := s3.draws + 1,
                flag := 1)
  }

  /** The batch cannot be read or cannot be partitioned. */
  predicate BatchFails(env: Env, key: string) {
    match env.read(env.bucket, key)
    case None => true
    case Some(batch) => PartitionOf(batch, env.iab, env.hash).Err?
  }

  /** One pass of the loop body. A failing read or partition skips the batch. */
  function Iteration(env: Env, s: RunState, i: nat, key: string): RunState {
    match env.read(env.bucket, key)
    case None => s
    case Some(batch) =>
      match PartitionOf(batch, env.iab, env.hash)
      case Err(_) => s
      case Ok(p) => Absorb(env, s, i, p)
  }

  /**
    * The loop body once the batch is partitioned: a pending reset replaces the event
    * mart by the batch's events and the flag is cleared; the first batch initialises
    * the marts and later ones are accumulated.
    */
  function Absorb(env: Env, s: RunState, i: nat, p: Parts): RunState {
    var s1 := (if s.flag == 1 then s.(event := Some(p.events)) else s).(flag := 0);
    if i == 0 then
      s1.(device := Some(p.devices), app := Some(p.apps), ip := Some(p.ips), event := Some(p.events))
    else Accumulate(env, s1, p)
  }

  /** The state after the first n passes of the loop. */
  function Loop(env: Env, s: RunState, keys: seq<string>, n: nat): RunState
    requires n <= |keys|
  {
    if n == 0 then s else Iteration(env, Loop(env, s, keys, n - 1), n - 1, keys[n - 1])
  }

  /** len(meta_list[:sample]) with Python's slice bounds; None keeps the whole list. */
  function SliceLength(len: nat, sample: Option<int>): (n: nat)
    ensures n <= len
    ensures sample.None? ==> n == len
    ensures sample.Some? && 0 <= sample.value <= len ==> n == sample.value
    ensures sample.Some? && -(len as int) <= sample.value < 0 ==> n == len + sample.value
    ensures sample.Some? && sample.value > len ==> n == len
    ensures sample.Some? && sample.value < -(len as int) ==> n == 0
  {
    if sample.None? then len
    else if sample.value >= 0 then (if sample.value <= len then sample.value else len)
    else if len + sample.value >= 0 then len + sample.value
    else 0
  }

  /**
    * The four final writes, device, app and IP tables and then the event table; the
    * first unbound mart raises NameError and ends the run there.
    */
  function Final(env: Env, s: RunState): Outcome {
    if s.device.None? then Outcome(s, false)
    else
      var s1 := s.(puts := s.puts + Write(env, Devices(s.device.value), DeviceObject, env.resourcePath));
      if s1.app.None? then Outcome(s1, false)
      else
        var s2 := s1.(puts := s1.puts + Write(env, Apps(s1.app.value), AppObject, env.resourcePath));
        if s2.ip.None? then Outcome(s2, false)
        else
          var s3 := s2.(puts := s2.puts + Write(env, Ips(s2.ip.value), IpObject, env.resourcePath));
          if s3.event.None? then Outcome(s3, false)
          else
            Outcome(s3.(puts := s3.puts + Write(env, Events(s3.event.value), EventObject(env.rand(s3.draws)),
                                                env.eventPath),
                        draws := s3.draws + 1),
                    true)
  }

  /**
    * The state before the loop, given the objects already stored: the IAB table written,
    * no mart bound, the caller's flag.
    */
  function Start(env: Env, flag: int, stored: seq<Put<Table>>): RunState {
    RunState(None, None, None, None, flag, 0, stored + Write(env, IabCodes(env.iab), IabObject, IabPath))
  }

  /** run, start to end. */
  function RunSpec(env: Env, keys: seq<string>, sample: Option<int>, flag: int, stored: seq<Put<Table>>): Outcome {
    Final(env, Loop(env, Start(env, flag, stored), keys, SliceLength(|keys|, sample)))
  }

  // ---------------------------------------------------------------------------
  // The crawler object

  class RelationalCrawler {
    const as3: Client<Table>

    /** The crawler owns an S3 helper on the given bucket, in the default region. */
    constructor (bucketName: Option<string>)
      ensures fresh(as3)
      ensures as3.bucketName == bucketName && as3.region == DefaultRegion && as3.puts == []
    {
      as3 := new Client(bucketName, None);
    }

    method Run(metaList: seq<string>, eventPath: string, resourcePath: string, sample: Option<int>,
               flag: int, byteThresh: int,
               read: (Option<string>, string) -> Option<Batch>, iab: map<string, string>,
               hash: string -> int, bytes: seq<EventRow> -> int, rand: nat -> nat)
      returns (completed: bool)
      modifies as3
      ensures var out := RunSpec(Env(read, iab, hash, bytes, rand, as3.bucketName, eventPath, resourcePath,
                                     byteThresh), metaList, sample, flag, old(as3.puts));
              as3.puts == out.state.puts && completed == out.completed
    {
      var env := Env(read, iab, hash, bytes, rand, as3.bucketName, eventPath, resourcePath, byteThresh);
      as3.WriteParquet(IabCodes(iab), IabObject, IabPath, None);
      var n := SliceLength(|metaList|, sample);
      var deviceMart: Option<seq<DeviceRow>> := None;
      var appMart: Option<AppTable> := None;
      var ipMart: Option<seq<IpRow>> := None;
      var eventMart: Option<seq<EventRow>> := None;
      var resetPending := flag;
      var draws: nat := 0;
      for i := 0 to n
        invariant Loop(env, Start(env, flag, old(as3.puts)), metaList, i)
                  == RunState(deviceMart, appMart, ipMart, eventMart, resetPending, draws, as3.puts)
      {
        ghost var cur := RunState(deviceMart, appMart, ipMart, eventMart, resetPending, draws, as3.puts);
        assert Loop(env, Start(env, flag, old(as3.puts)), metaList, i + 1) == Iteration(env, cur, i, metaList[i]);
        deviceMart, appMart, ipMart, eventMart, resetPending, draws :=
          Pass(env, i, metaList[i], deviceMart, appMart, ipMart, eventMart, resetPending, draws);
      }
      completed := WriteFinal(env, deviceMart, appMart, ipMart, eventMart, resetPending, draws);
    }

    /** One pass of the loop body of run; an exception ends the pass early. */
    method Pass(env: Env, i: nat, key: string,
                device: Option<seq<DeviceRow>>, app: Option<AppTable>, ip: Option<seq<IpRow>>,
                event: Option<seq<EventRow>>, flag: int, draws: nat)
      returns (device': Option<seq<DeviceRow>>, app': Option<AppTable>, ip': Option<seq<IpRow>>,
               event': Option<seq<EventRow>>, flag': int, draws': nat)
      requires env.bucket == as3.bucketName
      modifies as3
      ensures Iteration(env, RunState(device, app, ip, event, flag, draws, old(as3.puts)), i, key)
              == RunState(device', app', ip', event', flag', draws', as3.puts)
    {
      device', app', ip', event', flag', draws' := device, app, ip, event, flag, draws;
      var batch := env.read(as3.ReadBucket(None), key);
      if batch.None? {
        return;
      }
      var parts := Partition(batch.value, env.iab, env.hash);
      if parts.Err? {
        return;
      }
      var p := parts.value;
      if flag' == 1 {
        event' := Some(p.events);
      }
      flag' := 0;
      if i == 0 {
        device', app', ip', event' := Some(p.devices), Some(p.apps), Some(p.ips), Some(p.events);
        return;
      }
      device', app', ip', event', flag', draws' := AccumulateMarts(env, p, device', app', ip', event', flag', draws');
    }

    /** The else branch of the loop body: the dimension merges, then merge or flush. */
    method AccumulateMarts(env: Env, p: Parts,
                           device: Option<seq<DeviceRow>>, app: Option<AppTable>, ip: Option<seq<IpRow>>,
                           event: Option<seq<EventRow>>, flag: int, draws: nat)
      returns (device': Option<seq<DeviceRow>>, app': Option<AppTable>, ip': Option<seq<IpRow>>,
               event': Option<seq<EventRow>>, flag': int, draws': nat)
      requires env.bucket == as3.bucketName
      modifies as3
      ensures Accumulate(env, RunState(device, app, ip, event, flag, draws, old(as3.puts)), p)
              == RunState(device', app', ip', event', flag', draws', as3.puts)
    {
      device', app', ip', event', flag', draws' := device, app, ip, event, flag, draws;
      if device'.None? {
        return;
      }
      device' := Some(MergeDevices(device'.value, p.devices));
      if app'.None? {
        return;
      }
      app' := Some(MergeApps(app'.value, p.apps));
      if ip'.None? {
        return;
      }
      ip' := Some(MergeIps(ip'.value, p.ips));
      if event'.None? {
        return;
      }
      if env.bytes(event'.value) <= env.thresh {
        event' := Some(MergeEvents(event'.value, p.events));
      } else {
        Flush(env, draws', event'.value, device'.value, app'.value, ip'.value);
        draws' := draws' + 1;
        flag' := 1;
      }
    }

    /** The four write_parquet calls of a flush. */
    method Flush(env: Env, draw: nat, event: seq<EventRow>, device: seq<DeviceRow>, app: AppTable,
                 ip: seq<IpRow>)
      requires env.bucket == as3.bucketName
      modifies as3
      ensures as3.puts == Flushed(env, old(as3.puts), draw, event, device, app, ip)
    {
      as3.WriteParquet(Events(event), EventObject(env.rand(draw)), env.eventPath, None);
      as3.WriteParquet(Devices(device), DeviceObject, env.resourcePath, None);
      as3.WriteParquet(Apps(app), AppObject, env.resourcePath, None);
      as3.WriteParquet(Ips(ip), IpObject, env.resourcePath, None);
    }

    /** The final writes of run; false when a mart is unbound and the write raises NameError. */
    method WriteFinal(env: Env, device: Option<seq<DeviceRow>>, app: Option<AppTable>,
                      ip: Option<seq<IpRow>>, event: Option<seq<EventRow>>, flag: int, draws: nat)
      returns (completed: bool)
      requires env.bucket == as3.bucketName
      modifies as3
      ensures var out := Final(env, RunState(device, app, ip, event, flag, draws, old(as3.puts)));
              as3.puts == out.state.puts && completed == out.completed
    {
      if device.None? {
        return false;
      }
      as3.WriteParquet(Devices(device.value), DeviceObject, env.resourcePath, None);
      if app.None? {
        return false;
      }
      as3.WriteParquet(Apps(app.value), AppObject, env.resourcePath, None);
      if ip.None? {
        return false;
      }
      as3.WriteParquet(Ips(ip.value), IpObject, env.resourcePath, None);
      if event.None? {
        return false;
      }
      as3.WriteParquet(Events(event.value), EventObject(env.rand(draws)), env.eventPath, None);
      return true;
    }
  }
}
