/**
 The data behind the inverter chart: every AC-parameters point is copied
 and given the `load` of the battery point at the same index, or 0 when
 there is no such point or it has no load. The two series are paired by
 position, not by time label.
 */
module PowerCharts {
  import opened Types
  import Seed

  /**
   `batteryData[index]?.load ?? 0`: the battery point's `load` when that
   point exists and has one, otherwise the number 0.
   */
  function LoadAt(battery: seq<Point>, i: nat): (f: Field)
    ensures i < |battery| && "load" in battery[i].fields ==> f == battery[i].fields["load"]
    ensures i >= |battery| || "load" !in battery[i].fields ==> f == Num(0.0)
  {
    if i < |battery| && "load" in battery[i].fields then battery[i].fields["load"] else Num(0.0)
  }

  /** `{ ...p, load }`: the spread comes first, so any `load` of `p` is replaced. */
  function WithLoad(p: Point, load: Field): (q: Point)
    ensures q.time == p.time
    ensures q.fields.Keys == p.fields.Keys + {"load"}
    ensures q.fields["load"] == load
    ensures forall k :: k in p.fields && k != "load" ==> q.fields[k] == p.fields[k]
  {
    Point(p.time, p.fields["load" := load])
  }

  /**
   `combinedInverterData`: as long as the AC series, every AC point kept
   with its label and fields, and `load` at position i taken from the
   battery series at position i, or 0 when there is none.
   */
  function CombineInverter(ac: seq<Point>, battery: seq<Point>): (c: seq<Point>)
    ensures |c| == |ac|
    ensures forall i :: 0 <= i < |ac| ==> c[i].time == ac[i].time
    ensures forall i :: 0 <= i < |ac| ==> c[i].fields.Keys == ac[i].fields.Keys + {"load"}
    ensures forall i, k :: 0 <= i < |ac| && k in ac[i].fields && k != "load" ==> c[i].fields[k] == ac[i].fields[k]
    ensures forall i :: 0 <= i < |ac| && i < |battery| && "load" in battery[i].fields ==>
              c[i].fields["load"] == battery[i].fields["load"]
    ensures forall i :: 0 <= i < |ac| && (i >= |battery| || "load" !in battery[i].fields) ==>
              c[i].fields["load"] == Num(0.0)
  {
    seq(|ac|, i requires 0 <= i < |ac| => WithLoad(ac[i], LoadAt(battery, i)))
  }

  /**
   The same pairing as a walk down both series at once: take the head of
   each, default the load when the battery series has run out, continue
   with both tails.
   */
  function Zip(ac: seq<Point>, battery: seq<Point>): (c: seq<Point>)
    ensures |c| == |ac|
    decreases |ac|
  {
    if |ac| == 0 then []
    else
      var load := if |battery| > 0 && "load" in battery[0].fields then battery[0].fields["load"] else Num(0.0);
      [WithLoad(ac[0], load)] + Zip(ac[1..], if |battery| > 0 then battery[1..] else [])
  }

  /** The position-indexed map and the walk build the same series, for all inputs. */
  lemma {:induction false} CombineIsZip(ac: seq<Point>, battery: seq<Point>)
    ensures CombineInverter(ac, battery) == Zip(ac, battery)
    decreases |ac|
  {
    if |ac| > 0 {
      var rest := if |battery| > 0 then battery[1..] else [];
      CombineIsZip(ac[1..], rest);
      CombineTail(ac, battery, rest);
      var c := CombineInverter(ac, battery);
      assert c == [c[0]] + c[1..];
    }
  }

  /** The combined series less its head is the combination of both tails. */
  lemma CombineTail(ac: seq<Point>, battery: seq<Point>, rest: seq<Point>)
    requires |ac| > 0
    requires rest == if |battery| > 0 then battery[1..] else []
    ensures CombineInverter(ac, battery)[1..] == CombineInverter(ac[1..], rest)
    ensures CombineInverter(ac, battery)[0] == WithLoad(ac[0], LoadAt(battery, 0))
  {
    var c := CombineInverter(ac, battery);
    var c' := CombineInverter(ac[1..], rest);
    forall i | 0 <= i < |c'|
      ensures c[i + 1] == c'[i]
    {
      assert LoadAt(battery, i + 1) == LoadAt(rest, i);
    }
  }

  /**
   Where the AC series is no longer than the battery series and every
   battery point has a load, the chart never shows the 0 default.
   */
  lemma NoDefaultWhenCovered(ac: seq<Point>, battery: seq<Point>)
    requires |ac| <= |battery|
    requires forall i :: 0 <= i < |battery| ==> "load" in battery[i].fields
    ensures forall i :: 0 <= i < |ac| ==> CombineInverter(ac, battery)[i].fields["load"] == battery[i].fields["load"]
  {
  }

  /**
   On the seed the pairing by position is also a pairing by label: both
   series carry the same twelve labels, every combined point has the AC
   reading and the battery load of its own hour, and the AC series had no
   load of its own to lose.
   */
  lemma SeedInverterChart()
    ensures var ac := Seed.StaticAcParameters();
            var battery := Seed.StaticBatteryLoad();
            var c := CombineInverter(ac, battery);
            && Times(c) == Seed.HourLabels
            && (forall i :: 0 <= i < |c| ==> c[i].time == battery[i].time)
            && (forall i :: 0 <= i < |c| ==> c[i].fields["load"] == battery[i].fields["load"])
            && (forall i :: 0 <= i < |c| ==> c[i].fields.Keys == ac[i].fields.Keys + {"load"})
  {
    var ac := Seed.StaticAcParameters();
    var battery := Seed.StaticBatteryLoad();
    var c := CombineInverter(ac, battery);
    assert |ac| == |Times(ac)| == 12;
    assert |battery| == |Times(battery)| == 12;
    assert forall i :: 0 <= i < |c| ==> Times(c)[i] == Times(ac)[i];
  }
}
