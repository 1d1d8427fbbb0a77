/**
 * The engagement heatmap: a 7-day by 8-slot grid generated cell by cell
 * from random draws in fixed value bands (Wednesday at 6 pm pinned at 100),
 * the colour buckets and the opacity of a cell.
 */
module EngagementHeatmap {
  import opened Optional
  import opened Numeric

  const Days := 7
  const Slots := 8

  /** The pinned peak: Wednesday (day 2), the 6 pm slot (slot 6). */
  predicate IsPeak(day: int, hour: int) {
    day == 2 && hour == 6
  }

  datatype Cell = Cell(day: nat, hour: nat, value: int)

  /** A cell's value from its draw `r`, by the first band that applies; the peak ignores its draw. */
  function CellValue(day: nat, hour: nat, r: real): (v: int)
    requires IsDraw(r)
    ensures IsPeak(day, hour) ==> v == 100
    ensures !IsPeak(day, hour) && 1 <= day <= 4 && 4 <= hour <= 7 ==> 70 <= v <= 95
    ensures !(1 <= day <= 4 && 4 <= hour <= 7) && 5 <= hour <= 7 ==> 50 <= v <= 80
    ensures !(1 <= day <= 4 && 4 <= hour <= 7) && 2 <= hour <= 4 ==> 40 <= v <= 60
    ensures !(1 <= day <= 4 && 4 <= hour <= 7) && !(2 <= hour <= 7) ==> 10 <= v <= 40
    ensures 10 <= v <= 100
  {
    if IsPeak(day, hour) then 100
    else if 1 <= day <= 4 && 4 <= hour <= 7 then Round(70.0 + r * 25.0)
    else if 5 <= hour <= 7 then Round(50.0 + r * 30.0)
    else if 2 <= hour <= 4 then Round(40.0 + r * 20.0)
    else Round(10.0 + r * 30.0)
  }

  /** Position of a cell in day-major order. */
  function Pos(day: nat, hour: nat): nat {
    day * Slots + hour
  }

  /** The draw a cell consumes: one per cell in order, except the peak, which takes none. */
  function DrawPos(day: nat, hour: nat): (k: nat)
    requires day < Days && hour < Slots
    ensures k < Days * Slots - 1 || IsPeak(day, hour)
  {
    if Pos(day, hour) > Pos(2, 6) then Pos(day, hour) - 1 else Pos(day, hour)
  }

  /** The grid the generator must produce from `draws`. */
  ghost predicate Generated(cells: seq<Cell>, draws: seq<real>, n: nat)
    requires n <= |cells| && n <= Days * Slots && |draws| == Days * Slots - 1
    requires forall k :: 0 <= k < |draws| ==> IsDraw(draws[k])
  {
    forall i :: 0 <= i < n ==>
      cells[i].day == i / Slots && cells[i].hour == i % Slots
      && cells[i].value == CellValue(i / Slots, i % Slots, draws[DrawPos(i / Slots, i % Slots)])
  }

  /** `generateHeatmapData`: the nested day/slot loop pushing one cell at a time, drawing as it goes. */
  method GenerateHeatmap(draws: seq<real>) returns (cells: seq<Cell>)
    requires |draws| == Days * Slots - 1 && forall k :: 0 <= k < |draws| ==> IsDraw(draws[k])
    ensures |cells| == Days * Slots
    ensures Generated(cells, draws, |cells|)
  {
    cells := [];
    var next := 0;
    var day := 0;
    while day < Days
      invariant 0 <= day <= Days
      invariant |cells| == Pos(day, 0)
      invariant next == if |cells| > Pos(2, 6) then |cells| - 1 else |cells|
      invariant Generated(cells, draws, |cells|)
    {
      var hour := 0;
      while hour < Slots
        invariant 0 <= hour <= Slots
        invariant |cells| == Pos(day, hour)
        invariant next == if |cells| > Pos(2, 6) then |cells| - 1 else |cells|
        invariant Generated(cells, draws, |cells|)
      {
        var value;
        if day == 2 && hour == 6 {
          value := 100;
        } else {
          value := CellValue(day, hour, draws[next]);
          next := next + 1;
        }
        assert |cells| / Slots == day && |cells| % Slots == hour;
        cells := cells + [Cell(day, hour, value)];
        hour := hour + 1;
      }
      day := day + 1;
    }
  }

  /** The grid lookup `find(d => d.day === day && d.hour === hour)`. */
  function Find(cells: seq<Cell>, day: nat, hour: nat): (r: Option<Cell>)
    ensures r.Some? ==> r.value in cells && r.value.day == day && r.value.hour == hour
    ensures r.None? <==> forall i :: 0 <= i < |cells| ==> !(cells[i].day == day && cells[i].hour == hour)
  {
    if |cells| == 0 then None
    else if cells[0].day == day && cells[0].hour == hour then Some(cells[0])
    else
      assert forall i :: 1 <= i < |cells| ==> cells[i] == cells[1..][i - 1];
      Find(cells[1..], day, hour)
  }

  /** In a generated grid every (day, slot) pair appears exactly at its position, so the lookup always succeeds. */
  lemma FindSucceeds(cells: seq<Cell>, draws: seq<real>, day: nat, hour: nat)
    requires |draws| == Days * Slots - 1 && forall k :: 0 <= k < |draws| ==> IsDraw(draws[k])
    requires |cells| == Days * Slots && Generated(cells, draws, |cells|)
    requires day < Days && hour < Slots
    ensures Find(cells, day, hour) == Some(cells[Pos(day, hour)])
    ensures forall i :: 0 <= i < |cells| && cells[i].day == day && cells[i].hour == hour ==> i == Pos(day, hour)
  {
    var p := Pos(day, hour);
    assert p / Slots == day && p % Slots == hour;
    forall i | 0 <= i < |cells| && cells[i].day == day && cells[i].hour == hour
      ensures i == p
    {
      assert i == (i / Slots) * Slots + i % Slots;
    }
    FindFirst(cells, p, day, hour);
  }

  lemma {:induction false} FindFirst(cells: seq<Cell>, p: nat, day: nat, hour: nat)
    requires p < |cells| && cells[p].day == day && cells[p].hour == hour
    requires forall i :: 0 <= i < p ==> !(cells[i].day == day && cells[i].hour == hour)
    ensures Find(cells, day, hour) == Some(cells[p])
  {
    if p > 0 {
      assert forall i :: 0 <= i < p - 1 ==> cells[1..][i] == cells[i + 1];
      FindFirst(cells[1..], p - 1, day, hour);
    }
  }

  /** The generated peak cell is always 100. */
  lemma PeakIsHundred(cells: seq<Cell>, draws: seq<real>)
    requires |draws| == Days * Slots - 1 && forall k :: 0 <= k < |draws| ==> IsDraw(draws[k])
    requires |cells| == Days * Slots && Generated(cells, draws, |cells|)
    ensures Find(cells, 2, 6).Some? && Find(cells, 2, 6).value.value == 100
  {
    FindSucceeds(cells, draws, 2, 6);
    assert Pos(2, 6) / Slots == 2 && Pos(2, 6) % Slots == 6;
  }

  /** `getColor`: threshold buckets at 90, 75, 60, 45 and 30. */
  function Color(v: int): (c: string)
    ensures c == "bg-accent-red" <==> v >= 90
    ensures c == "bg-orange-500" <==> 75 <= v < 90
    ensures c == "bg-accent-yellow" <==> 60 <= v < 75
    ensures c == "bg-green-500" <==> 45 <= v < 60
    ensures c == "bg-accent-cyan" <==> 30 <= v < 45
    ensures c == "bg-lab-800" <==> v < 30
  {
    if v >= 90 then "bg-accent-red"
    else if v >= 75 then "bg-orange-500"
    else if v >= 60 then "bg-accent-yellow"
    else if v >= 45 then "bg-green-500"
    else if v >= 30 then "bg-accent-cyan"
    else "bg-lab-800"
  }

  /** The buckets from coolest to hottest. */
  function Heat(c: string): nat {
    match c
    case "bg-lab-800" => 0
    case "bg-accent-cyan" => 1
    case "bg-green-500" => 2
    case "bg-accent-yellow" => 3
    case "bg-orange-500" => 4
    case _ => 5
  }

  /** A higher value never falls in a cooler bucket. */
  lemma ColorMonotone(v: int, w: int)
    requires v <= w
    ensures Heat(Color(v)) <= Heat(Color(w))
  {
  }

  /** `getOpacity`: `min(v / 100, 1)`. */
  function Opacity(v: int): (o: real)
    ensures o <= 1.0
    ensures o == 1.0 <==> v >= 100
    ensures v >= 0 ==> o >= 0.0
  {
    var f := v as real / 100.0;
    if f <= 1.0 then f else 1.0
  }
}
