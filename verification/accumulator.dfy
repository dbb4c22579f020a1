/**
  * The cross-batch merges of the run loop: a batch's table is appended to the running
  * table and first-wins deduplication on the key keeps the row already accumulated.
  */
module Accumulator {
  import opened Dedup
  import opened Records

  /** pd.concat([device_mart, dm]).drop_duplicates(["DeviceID"]). */
  function MergeDevices(existing: seq<DeviceRow>, incoming: seq<DeviceRow>): seq<DeviceRow> {
    DedupBy(existing + incoming, DeviceKey)
  }

  /**
    * The transposed outer merge of app_mart and am followed by drop_duplicates(["AppName"]):
    * the union of the column labels, the rows of both tables in order, and first-wins on
    * AppName. A cell a row lacks for a column of the other table is simply absent.
    */
  function MergeApps(existing: AppTable, incoming: AppTable): AppTable {
    AppTable(existing.columns + incoming.columns, DedupBy(existing.rows + incoming.rows, AppKey))
  }

  /** The transposed outer merge of ip_mart and im followed by drop_duplicates(["IP"]). */
  function MergeIps(existing: seq<IpRow>, incoming: seq<IpRow>): seq<IpRow> {
    DedupBy(existing + incoming, IpKey)
  }

  /** The transposed outer merge of event_mart and em followed by a full-row drop_duplicates(). */
  function MergeEvents(existing: seq<EventRow>, incoming: seq<EventRow>): seq<EventRow> {
    DedupBy(existing + incoming, Id)
  }

  /**
    * Merging into a keyed table keeps every accumulated row in place, adds only rows
    * with new keys, keeps the keys unique and holds exactly the keys of both tables.
    */
  lemma KeyedMerge<T, K>(existing: seq<T>, incoming: seq<T>, key: T -> K)
    requires UniqueKeys(existing, key)
    ensures var merged := DedupBy(existing + incoming, key);
            |existing| <= |merged|
            && merged[..|existing|] == existing
            && UniqueKeys(merged, key)
            && KeySet(merged, key) == KeySet(existing, key) + KeySet(incoming, key)
            && forall i :: |existing| <= i < |merged| ==> key(merged[i]) !in KeySet(existing, key)
  {
    MergeKeepsExisting(existing, incoming, key);
    var added := DedupFrom(incoming, key, KeySet(existing, key));
    var merged := DedupBy(existing + incoming, key);
    assert merged == existing + added;
    forall i | |existing| <= i < |merged| ensures key(merged[i]) !in KeySet(existing, key) {
      assert merged[i] == added[i - |existing|];
    }
    assert KeySet(existing + incoming, key) == KeySet(existing, key) + KeySet(incoming, key) by {
      var s := existing + incoming;
      forall k | k in KeySet(s, key) ensures k in KeySet(existing, key) + KeySet(incoming, key) {
        var i :| 0 <= i < |s| && key(s[i]) == k;
        if i >= |existing| { assert key(incoming[i - |existing|]) == k; }
      }
      forall k | k in KeySet(existing, key) + KeySet(incoming, key) ensures k in KeySet(s, key) {
        if k in KeySet(existing, key) {
          var i :| 0 <= i < |existing| && key(existing[i]) == k;
          assert key(s[i]) == k;
        } else {
          var i :| 0 <= i < |incoming| && key(incoming[i]) == k;
          assert key(s[i + |existing|]) == k;
        }
      }
    }
  }

  /** A device keeps the flags of the first batch it appeared in. */
  lemma MergeDevicesSpec(existing: seq<DeviceRow>, incoming: seq<DeviceRow>)
    requires UniqueKeys(existing, DeviceKey)
    ensures var merged := MergeDevices(existing, incoming);
            |existing| <= |merged| && merged[..|existing|] == existing
            && UniqueKeys(merged, DeviceKey)
            && KeySet(merged, DeviceKey) == KeySet(existing, DeviceKey) + KeySet(incoming, DeviceKey)
  {
    KeyedMerge(existing, incoming, DeviceKey);
  }

  /**
    * An application keeps its accumulated row, AppNames stay unique, the columns are the
    * union of both tables' columns, and no cell falls outside the columns.
    */
  lemma MergeAppsSpec(existing: AppTable, incoming: AppTable)
    requires UniqueKeys(existing.rows, AppKey)
    requires CellsInColumns(existing) && CellsInColumns(incoming)
    ensures var merged := MergeApps(existing, incoming);
            |existing.rows| <= |merged.rows| && merged.rows[..|existing.rows|] == existing.rows
            && UniqueKeys(merged.rows, AppKey)
            && KeySet(merged.rows, AppKey) == KeySet(existing.rows, AppKey) + KeySet(incoming.rows, AppKey)
            && merged.columns == existing.columns + incoming.columns
            && CellsInColumns(merged)
  {
    KeyedMerge(existing.rows, incoming.rows, AppKey);
    var merged := MergeApps(existing, incoming);
    forall i | 0 <= i < |merged.rows| ensures merged.rows[i].categories.Keys <= merged.columns {
      var s := existing.rows + incoming.rows;
      assert merged.rows[i] in s;
      var j :| 0 <= j < |s| && s[j] == merged.rows[i];
      if j >= |existing.rows| { assert s[j] == incoming.rows[j - |existing.rows|]; }
    }
  }

  /** An IP keeps the ISP it was first seen with, and IPs stay unique. */
  lemma MergeIpsSpec(existing: seq<IpRow>, incoming: seq<IpRow>)
    requires UniqueKeys(existing, IpKey)
    ensures var merged := MergeIps(existing, incoming);
            |existing| <= |merged| && merged[..|existing|] == existing
            && UniqueKeys(merged, IpKey)
            && KeySet(merged, IpKey) == KeySet(existing, IpKey) + KeySet(incoming, IpKey)
  {
    KeyedMerge(existing, incoming, IpKey);
  }

  /**
    * The merged event table holds exactly the rows of both tables, once each; when the
    * accumulated rows are distinct they stay in place.
    */
  lemma MergeEventsSpec(existing: seq<EventRow>, incoming: seq<EventRow>, e: EventRow)
    ensures UniqueKeys(MergeEvents(existing, incoming), Id)
    ensures e in MergeEvents(existing, incoming) <==> e in existing || e in incoming
    ensures UniqueKeys(existing, Id) ==>
              |existing| <= |MergeEvents(existing, incoming)|
              && MergeEvents(existing, incoming)[..|existing|] == existing
  {
    DedupSameElements(existing + incoming, e);
    if UniqueKeys(existing, Id) {
      KeyedMerge(existing, incoming, Id);
    }
  }

  /** Merging keeps every event row resolved. */
  lemma MergeEventsResolved(existing: seq<EventRow>, incoming: seq<EventRow>)
    requires EventsResolved(existing) && EventsResolved(incoming)
    ensures EventsResolved(MergeEvents(existing, incoming))
  {
    var merged := MergeEvents(existing, incoming);
    var s := existing + incoming;
    forall i | 0 <= i < |merged| ensures merged[i].appId.Some? {
      assert merged[i] in s;
      var j :| 0 <= j < |s| && s[j] == merged[i];
      if j >= |existing| { assert s[j] == incoming[j - |existing|]; }
    }
  }

  /** A table merged with itself is its own deduplication. */
  lemma MergeEventsSelf(events: seq<EventRow>)
    ensures MergeEvents(events, events) == DedupBy(events, Id)
  {
    DedupAppend(events, events, Id, {});
    assert {} + KeySet(events, Id) == KeySet(events, Id);
    var tail := DedupFrom(events, Id, KeySet(events, Id));
    assert KeySet(tail, Id) == {};
    assert |tail| > 0 ==> Id(tail[0]) in KeySet(tail, Id);
  }
}
