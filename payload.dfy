/**
 * A parsed message: a metric name and two string-to-string maps (tags and
 * data), filled in place through a fluent builder whose `Build` hands out the
 * very object it has been filling.
 */
module Payloads {
  import opened Common

  /** The content of a payload at one moment. */
  datatype PayloadView = PayloadView(metric: string, tags: map<string, string>, data: map<string, string>)

  /** What a newly constructed payload holds: an empty metric and two empty maps. */
  const Empty := PayloadView("", map[], map[])

  /** One call on a payload builder, as recorded in its history. */
  datatype BuilderCall =
    | SetMetric(metric: string)
    | AddTag(key: string, value: string)
    | AddData(key: string, value: string)

  /** The content after one builder call: `put` into the right map, or a metric replacement. */
  function Apply(v: PayloadView, c: BuilderCall): PayloadView {
    match c
    case SetMetric(m) => v.(metric := m)
    case AddTag(k, x) => v.(tags := v.tags[k := x])
    case AddData(k, x) => v.(data := v.data[k := x])
  }

  /** The content produced by a fresh builder after the given calls, in order. */
  function Run(calls: seq<BuilderCall>): PayloadView {
    if calls == [] then Empty else Apply(Run(calls[..|calls| - 1]), calls[|calls| - 1])
  }

  /** Which of a payload's two maps a builder call writes into. */
  datatype Slot = Tags | Data

  /** The map of the given slot. */
  function Entries(v: PayloadView, slot: Slot): map<string, string> {
    match slot
    case Tags => v.tags
    case Data => v.data
  }

  /** Call `c` puts key `k` into the map of `slot` (`addTag` for tags, `addData` for data). */
  ghost predicate Writes(c: BuilderCall, slot: Slot, k: string) {
    match slot
    case Tags => c.AddTag? && c.key == k
    case Data => c.AddData? && c.key == k
  }

  /** Some call of the history puts key `k` into the map of `slot`. */
  ghost predicate EverWritten(calls: seq<BuilderCall>, slot: Slot, k: string) {
    exists i :: 0 <= i < |calls| && Writes(calls[i], slot, k)
  }

  /** Call `i` is the last one that puts key `k` into the map of `slot`. */
  ghost predicate IsLastWrite(calls: seq<BuilderCall>, slot: Slot, k: string, i: int) {
    0 <= i < |calls| && Writes(calls[i], slot, k) &&
    forall j :: i < j < |calls| ==> !Writes(calls[j], slot, k)
  }

  /** Call `i` is the last `setMetric`. */
  ghost predicate IsLastMetricSet(calls: seq<BuilderCall>, i: int) {
    0 <= i < |calls| && calls[i].SetMetric? &&
    forall j :: i < j < |calls| ==> !calls[j].SetMetric?
  }

  /** Run agrees with the call history on every prefix step. */
  lemma RunSnoc(calls: seq<BuilderCall>, c: BuilderCall)
    ensures Run(calls + [c]) == Apply(Run(calls), c)
  {
    assert (calls + [c])[..|calls|] == calls;
  }

  /** One call either writes key `k` of a map, or leaves that entry as it was. */
  lemma ApplyEntry(v: PayloadView, c: BuilderCall, slot: Slot, k: string)
    ensures Writes(c, slot, k) ==> k in Entries(Apply(v, c), slot) && Entries(Apply(v, c), slot)[k] == c.value
    ensures !Writes(c, slot, k) ==> (k in Entries(Apply(v, c), slot) <==> k in Entries(v, slot))
    ensures !Writes(c, slot, k) && k in Entries(v, slot) ==> Entries(Apply(v, c), slot)[k] == Entries(v, slot)[k]
  {
  }

  lemma EverWrittenSnoc(calls: seq<BuilderCall>, c: BuilderCall, slot: Slot, k: string)
    ensures EverWritten(calls + [c], slot, k) <==> EverWritten(calls, slot, k) || Writes(c, slot, k)
  {
    var s := calls + [c];
    if EverWritten(s, slot, k) {
      var i :| 0 <= i < |s| && Writes(s[i], slot, k);
      if i < |calls| {
        assert Writes(calls[i], slot, k);
      }
    }
    if EverWritten(calls, slot, k) {
      var i :| 0 <= i < |calls| && Writes(calls[i], slot, k);
      assert Writes(s[i], slot, k);
    }
    if Writes(c, slot, k) {
      assert Writes(s[|calls|], slot, k);
    }
  }

  lemma IsLastWriteSnoc(calls: seq<BuilderCall>, c: BuilderCall, slot: Slot, k: string, i: int)
    requires IsLastWrite(calls + [c], slot, k, i)
    ensures Writes(c, slot, k) ==> i == |calls|
    ensures !Writes(c, slot, k) ==> IsLastWrite(calls, slot, k, i)
  {
    var s := calls + [c];
    assert s[|calls|] == c;
    if !Writes(c, slot, k) {
      assert s[i] == calls[i];
      forall j | i < j < |calls| ensures !Writes(calls[j], slot, k) {
        assert s[j] == calls[j];
      }
    }
  }

  /**
   * Tags and data are last-write-wins: a key is present exactly when some
   * `addTag` (resp. `addData`) named it, and then holds the value of the last
   * such call.
   */
  lemma {:induction false} LastWriteWins(calls: seq<BuilderCall>, slot: Slot, k: string)
    ensures k in Entries(Run(calls), slot) <==> EverWritten(calls, slot, k)
    ensures forall i :: IsLastWrite(calls, slot, k, i) ==>
      k in Entries(Run(calls), slot) && Entries(Run(calls), slot)[k] == calls[i].value
  {
    if calls != [] {
      var n := |calls| - 1;
      var prefix, c := calls[..n], calls[n];
      assert calls == prefix + [c];
      LastWriteWins(prefix, slot, k);
      ApplyEntry(Run(prefix), c, slot, k);
      EverWrittenSnoc(prefix, c, slot, k);
      forall i | IsLastWrite(calls, slot, k, i)
        ensures k in Entries(Run(calls), slot) && Entries(Run(calls), slot)[k] == calls[i].value
      {
        IsLastWriteSnoc(prefix, c, slot, k, i);
      }
    }
  }

  lemma IsLastMetricSetSnoc(calls: seq<BuilderCall>, c: BuilderCall, i: int)
    requires IsLastMetricSet(calls + [c], i)
    ensures c.SetMetric? ==> i == |calls|
    ensures !c.SetMetric? ==> IsLastMetricSet(calls, i)
  {
    var s := calls + [c];
    assert s[|calls|] == c;
    if !c.SetMetric? {
      assert s[i] == calls[i];
      forall j | i < j < |calls| ensures !calls[j].SetMetric? {
        assert s[j] == calls[j];
      }
    }
  }

  /** The metric is "" until the first `setMetric`, and afterwards the last value set. */
  lemma {:induction false} MetricIsLastSet(calls: seq<BuilderCall>)
    ensures (forall i :: 0 <= i < |calls| ==> !calls[i].SetMetric?) ==> Run(calls).metric == ""
    ensures forall i :: IsLastMetricSet(calls, i) ==> Run(calls).metric == calls[i].metric
  {
    if calls != [] {
      var n := |calls| - 1;
      var prefix, c := calls[..n], calls[n];
      assert calls == prefix + [c];
      MetricIsLastSet(prefix);
      if forall i :: 0 <= i < |calls| ==> !calls[i].SetMetric? {
        forall i | 0 <= i < n ensures !prefix[i].SetMetric? {
          assert prefix[i] == calls[i];
        }
      }
      forall i | IsLastMetricSet(calls, i) ensures Run(calls).metric == calls[i].metric {
        IsLastMetricSetSnoc(prefix, c, i);
      }
    }
  }

  /** A payload: its fields are changed only by the builder that created it. */
  class Payload {
    var metric: string
    var tags: map<string, string>
    var data: map<string, string>

    /** Java's private constructor with the field initialisers. */
    constructor ()
      ensures View() == Empty
    {
      metric := "";
      tags := map[];
      data := map[];
    }

    function View(): PayloadView
      reads this
    {
      PayloadView(metric, tags, data)
    }

    function GetMetric(): (m: string)
      reads this
      ensures m == View().metric
    {
      metric
    }

    /** A read-only view of the tags; its contents are the internal map's. */
    function GetTags(): (m: map<string, string>)
      reads this
      ensures m == View().tags
    {
      tags
    }

    /** The value stored for `key`, or None (Java's null) when there is none. */
    function GetTag(key: string): (r: Option<string>)
      reads this
      ensures r.Some? <==> key in View().tags
      ensures r.Some? ==> r.value == View().tags[key]
    {
      if key in tags then Some(tags[key]) else None
    }

    /** A read-only view of the data; its contents are the internal map's. */
    function GetData(): (m: map<string, string>)
      reads this
      ensures m == View().data
    {
      data
    }

    /** The value stored for data key `key`, or None (Java's null). */
    function GetDatum(key: string): (r: Option<string>)
      reads this
      ensures r.Some? <==> key in View().data
      ensures r.Some? ==> r.value == View().data[key]
    {
      if key in data then Some(data[key]) else None
    }
  }

  /**
   * The fluent builder. It owns one payload, `internal`, created with the
   * builder; every setter mutates it and returns the builder itself, and
   * `Build` returns `internal` without copying it. The ghost `calls` records
   * the setter calls so far.
   */
  class PayloadBuilder {
    const internal: Payload
    ghost var calls: seq<BuilderCall>

    ghost predicate Valid()
      reads this, internal
    {
      internal.View() == Run(calls)
    }

    constructor ()
      ensures Valid() && fresh(internal) && calls == []
      ensures internal.View() == Empty
    {
      internal := new Payload();
      calls := [];
    }

    method SetMetric(metric: string) returns (b: PayloadBuilder)
      requires Valid()
      modifies this, internal
      ensures Valid() && b == this
      ensures calls == old(calls) + [BuilderCall.SetMetric(metric)]
      ensures internal.metric == metric
      ensures internal.tags == old(internal.tags) && internal.data == old(internal.data)
    {
      RunSnoc(calls, BuilderCall.SetMetric(metric));
      internal.metric := metric;
      calls := calls + [BuilderCall.SetMetric(metric)];
      b := this;
    }

    method AddTag(key: string, value: string) returns (b: PayloadBuilder)
      requires Valid()
      modifies this, internal
      ensures Valid() && b == this
      ensures calls == old(calls) + [BuilderCall.AddTag(key, value)]
      ensures internal.tags == old(internal.tags)[key := value]
      ensures internal.metric == old(internal.metric) && internal.data == old(internal.data)
    {
      RunSnoc(calls, BuilderCall.AddTag(key, value));
      internal.tags := internal.tags[key := value];
      calls := calls + [BuilderCall.AddTag(key, value)];
      b := this;
    }

    method AddData(key: string, value: string) returns (b: PayloadBuilder)
      requires Valid()
      modifies this, internal
      ensures Valid() && b == this
      ensures calls == old(calls) + [BuilderCall.AddData(key, value)]
      ensures internal.data == old(internal.data)[key := value]
      ensures internal.metric == old(internal.metric) && internal.tags == old(internal.tags)
    {
      RunSnoc(calls, BuilderCall.AddData(key, value));
      internal.data := internal.data[key := value];
      calls := calls + [BuilderCall.AddData(key, value)];
      b := this;
    }

    /** Returns the builder's own payload: no copy is made. */
    method Build() returns (p: Payload)
      requires Valid()
      ensures p == internal
      ensures p.View() == Run(calls)
    {
      p := internal;
    }
  }

  /**
   * Reading a built payload: `getTag(k)` is the value of the last `addTag(k, _)`
   * made on its builder, or null when no `addTag` named `k`.
   */
  lemma GetTagIsLastAddTag(b: PayloadBuilder, k: string)
    requires b.Valid()
    ensures b.internal.GetTag(k).None? <==> !EverWritten(b.calls, Tags, k)
    ensures forall i :: IsLastWrite(b.calls, Tags, k, i) ==> b.internal.GetTag(k) == Some(b.calls[i].value)
  {
    LastWriteWins(b.calls, Tags, k);
  }

  /** Likewise `getDatum(k)` against the builder's `addData` calls. */
  lemma GetDatumIsLastAddData(b: PayloadBuilder, k: string)
    requires b.Valid()
    ensures b.internal.GetDatum(k).None? <==> !EverWritten(b.calls, Data, k)
    ensures forall i :: IsLastWrite(b.calls, Data, k, i) ==> b.internal.GetDatum(k) == Some(b.calls[i].value)
  {
    LastWriteWins(b.calls, Data, k);
  }

  /**
   * Aliasing: a payload obtained from `build()` keeps changing when the same
   * builder is used afterwards, and a second `build()` returns the same object.
   */
  method BuildThenAddTag(key: string, value: string) returns (first: Payload, second: Payload)
    ensures first == second
    ensures first.GetTag(key) == Some(value)
    ensures first.GetMetric() == "" && first.GetData() == map[]
  {
    var builder := new PayloadBuilder();
    first := builder.Build();
    var same := builder.AddTag(key, value);
    second := same.Build();
  }
}
