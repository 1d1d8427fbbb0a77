/**
 * The command center's live state: the radar sweep that advances while
 * scanning, the live metrics redrawn from random draws, and the window of
 * recent signals. Each timer callback is one method call; each
 * `Math.random()` value is a parameter in [0, 1).
 */
module CommandCenter {
  import opened Numeric

  /** The angle after `n` radar ticks from `a`, each adding 2 degrees modulo 360. */
  function Swept(a: int, n: nat): (r: int)
    ensures 0 <= r < 360
  {
    if n == 0 then a % 360 else (Swept(a, n - 1) + 2) % 360
  }

  /** `n` ticks turn the radar by `2n` degrees, so 180 ticks bring it back. */
  lemma {:induction false} SweptClosedForm(a: int, n: nat)
    ensures Swept(a, n) == (a + 2 * n) % 360
  {
    if n > 0 {
      SweptClosedForm(a, n - 1);
      var q := (a + 2 * (n - 1)) / 360;
      assert a + 2 * (n - 1) == 360 * q + Swept(a, n - 1);
      assert a + 2 * n == 360 * q + (Swept(a, n - 1) + 2);
      ModShift(Swept(a, n - 1) + 2, q);
    }
  }

  lemma ModShift(x: int, q: int)
    ensures (360 * q + x) % 360 == x % 360
  {
  }

  lemma SweepPeriod(a: int)
    requires 0 <= a < 360
    ensures Swept(a, 180) == a
  {
    SweptClosedForm(a, 180);
    ModShift(a, 1);
  }

  /** `totalReach`: a whole number in [1,200,000, 2,199,999]. */
  function TotalReach(r: real): (n: int)
    requires IsDraw(r)
    ensures 1200000 <= n <= 2199999
  {
    (r * 1000000.0).Floor + 1200000
  }

  datatype SignalType = InstagramSignal | TikTokSignal | EngagementSignal

  const SignalTypes: seq<SignalType> := [InstagramSignal, TikTokSignal, EngagementSignal]

  datatype Signal = Signal(id: int, x: real, y: real, kind: SignalType, strength: real)

  /** A new signal: position and strength in [0, 100), type drawn uniformly from the three. */
  function NewSignal(now: int, rx: real, ry: real, rt: real, rs: real): (s: Signal)
    requires IsDraw(rx) && IsDraw(ry) && IsDraw(rt) && IsDraw(rs)
    ensures s.id == now
    ensures 0.0 <= s.x < 100.0 && 0.0 <= s.y < 100.0 && 0.0 <= s.strength < 100.0
    ensures s.kind == InstagramSignal <==> rt < 1.0 / 3.0
    ensures s.kind == EngagementSignal <==> rt >= 2.0 / 3.0
  {
    Signal(now, rx * 100.0, ry * 100.0, SignalTypes[DrawIndex(rt, 3)], rs * 100.0)
  }

  function Min(a: nat, b: nat): nat {
    if a <= b then a else b
  }

  /** `s.slice(-n)`: the last `n` elements, or all of them when there are fewer. */
  function Last<T>(s: seq<T>, n: nat): (r: seq<T>)
    ensures |r| == Min(n, |s|)
    ensures forall i :: 0 <= i < |r| ==> r[i] == s[|s| - |r| + i]
  {
    s[|s| - Min(n, |s|)..]
  }

  /** The signal update: the last ten previous signals, then the new one. */
  function NextWindow(prev: seq<Signal>, s: Signal): (r: seq<Signal>)
    ensures |r| <= 11 && |r| == Min(|prev|, 10) + 1
    ensures r[|r| - 1] == s
    ensures r[..|r| - 1] == Last(prev, 10)
  {
    Last(prev, 10) + [s]
  }

  /** The window after a run of updates from empty: the last eleven signals received. */
  function WindowAfter(arrivals: seq<Signal>): seq<Signal> {
    if |arrivals| == 0 then []
    else NextWindow(WindowAfter(arrivals[..|arrivals| - 1]), arrivals[|arrivals| - 1])
  }

  lemma {:induction false} WindowHoldsNewest(arrivals: seq<Signal>)
    ensures WindowAfter(arrivals) == Last(arrivals, 11)
  {
    if |arrivals| > 0 {
      var init := arrivals[..|arrivals| - 1];
      WindowHoldsNewest(init);
      var w := WindowAfter(arrivals);
      var l := Last(arrivals, 11);
      assert |w| == |l|;
      forall i | 0 <= i < |w| ensures w[i] == l[i] {
        if i < |w| - 1 {
          assert w[i] == Last(Last(init, 11), 10)[i];
        }
      }
    }
  }

  /** `getSignalColor`: a colour per known type, green for anything else. */
  function SignalColor(kind: string): (c: string)
    ensures c == "#10b981" <==> kind !in {"instagram", "tiktok", "engagement"}
    ensures kind == "instagram" ==> c == "#ec4899"
    ensures kind == "tiktok" ==> c == "#a855f7"
    ensures kind == "engagement" ==> c == "#06b6d4"
  {
    match kind
    case "instagram" => "#ec4899"
    case "tiktok" => "#a855f7"
    case "engagement" => "#06b6d4"
    case _ => "#10b981"
  }

  /** The name each signal type carries in the source. */
  function TypeName(k: SignalType): (n: string)
    ensures n in {"instagram", "tiktok", "engagement"}
  {
    match k
    case InstagramSignal => "instagram"
    case TikTokSignal => "tiktok"
    case EngagementSignal => "engagement"
  }

  /** No signal that the generator produces is drawn in the default colour. */
  lemma GeneratedNeverDefault(s: Signal)
    ensures SignalColor(TypeName(s.kind)) != "#10b981"
  {
  }

  /** The component's live state. */
  class Center {
    var isScanning: bool
    var radarAngle: int
    var totalReach: int
    var engagement: real
    var growth: real
    var activeSignals: seq<Signal>

    ghost predicate Valid()
      reads this
    {
      0 <= radarAngle < 360 && radarAngle % 2 == 0 && |activeSignals| <= 11
    }

    constructor()
      ensures Valid()
      ensures isScanning && radarAngle == 0 && totalReach == 0 && activeSignals == []
      ensures engagement == 0.0 && growth == 0.0
    {
      isScanning, radarAngle := true, 0;
      totalReach, engagement, growth := 0, 0.0, 0.0;
      activeSignals := [];
    }

    /** The 50 ms radar interval, which runs only while scanning. */
    method RadarTick()
      requires Valid()
      modifies this
      ensures Valid()
      ensures radarAngle == if old(isScanning) then Swept(old(radarAngle), 1) else old(radarAngle)
      ensures isScanning == old(isScanning) && activeSignals == old(activeSignals)
      ensures totalReach == old(totalReach) && engagement == old(engagement) && growth == old(growth)
    {
      if isScanning {
        radarAngle := (radarAngle + 2) % 360;
      }
    }

    /** The pause/scan button. */
    method ToggleScanning()
      requires Valid()
      modifies this
      ensures Valid()
      ensures isScanning == !old(isScanning) && radarAngle == old(radarAngle)
      ensures activeSignals == old(activeSignals)
      ensures totalReach == old(totalReach) && engagement == old(engagement) && growth == old(growth)
    {
      isScanning := !isScanning;
    }

    /** The 2 s metrics interval: reach, engagement in [2, 7) and growth in [1, 4). */
    method MetricsTick(r1: real, r2: real, r3: real)
      requires Valid() && IsDraw(r1) && IsDraw(r2) && IsDraw(r3)
      modifies this
      ensures Valid()
      ensures totalReach == TotalReach(r1) && 1200000 <= totalReach <= 2199999
      ensures engagement == r2 * 5.0 + 2.0 && growth == r3 * 3.0 + 1.0
      ensures 2.0 <= engagement < 7.0 && 1.0 <= growth < 4.0
      ensures radarAngle == old(radarAngle) && activeSignals == old(activeSignals)
      ensures isScanning == old(isScanning)
    {
      totalReach := TotalReach(r1);
      engagement := r2 * 5.0 + 2.0;
      growth := r3 * 3.0 + 1.0;
    }

    /** The 1.5 s signal interval. */
    method SignalTick(now: int, rx: real, ry: real, rt: real, rs: real)
      requires Valid() && IsDraw(rx) && IsDraw(ry) && IsDraw(rt) && IsDraw(rs)
      modifies this
      ensures Valid()
      ensures activeSignals == NextWindow(old(activeSignals), NewSignal(now, rx, ry, rt, rs))
      ensures radarAngle == old(radarAngle) && isScanning == old(isScanning)
      ensures totalReach == old(totalReach) && engagement == old(engagement) && growth == old(growth)
    {
      activeSignals := NextWindow(activeSignals, NewSignal(now, rx, ry, rt, rs));
    }
  }
}
