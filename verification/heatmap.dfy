/** The heat map texture of app/components/HeatmapOverlay.tsx: the mean latency
    of every exchange, the default for exchanges without one, the colour band
    and opacity of each heat spot, and where the spot lands on the canvas.
    The gradient drawing, the blur and the texture upload are not modelled. */
module Heatmap {
  import opened JsMath
  import opened Seqs
  import opened Text
  import opened Types
  import LatencySimulator

  /** The canvas is `SIZE` by `SIZE` pixels. */
  const SIZE: real := 512.0

  /** The mean latency of the records touching `id`, if there is any. */
  function MeanLatency(data: seq<LatencyData>, id: string): Option<real> {
    var touching := Touching(data, id);
    if |touching| > 0 then Some(Mean(LatencyValues(touching))) else None
  }

  /** The `forEach` filling `exchangeLatencies`: an entry for every listed
      exchange some record touches, holding the mean of those records'
      latencies, and no other entry. */
  method ExchangeLatencies(exchanges: seq<Exchange>, data: seq<LatencyData>) returns (m: map<string, real>)
    ensures forall id :: id in m <==> (exists i :: 0 <= i < |exchanges| && exchanges[i].id == id) && MeanLatency(data, id).Some?
    ensures forall id :: id in m ==> m[id] == MeanLatency(data, id).value
  {
    m := map[];
    for i := 0 to |exchanges|
      invariant forall id :: id in m <==> (exists j :: 0 <= j < i && exchanges[j].id == id) && MeanLatency(data, id).Some?
      invariant forall id :: id in m ==> m[id] == MeanLatency(data, id).value
    {
      var ex := exchanges[i];
      var relevantLatencies := Touching(data, ex.id);
      if |relevantLatencies| > 0 {
        var avg := Sum(LatencyValues(relevantLatencies)) as real / |relevantLatencies| as real;
        m := m[ex.id := avg];
      }
    }
  }

  /** `exchangeLatencies.get(id) || 50`: the entry, or 50 when there is none
      (an entry equal to 0 also becomes 50). */
  function DisplayLatency(m: map<string, real>, id: string): (latency: real)
    ensures id !in m ==> latency == 50.0
    ensures id in m && m[id] != 0.0 ==> latency == m[id]
    ensures id in m && m[id] == 0.0 ==> latency == 50.0
  {
    if id in m && m[id] != 0.0 then m[id] else 50.0
  }

  /** The latency a listed exchange's spot is drawn with: the mean of its
      records, or 50 without records (or with a mean of 0). */
  function SpotLatency(data: seq<LatencyData>, id: string): real {
    match MeanLatency(data, id)
    case Some(mean) => if mean != 0.0 then mean else 50.0
    case None => 50.0
  }

  /** For a listed exchange the map lookup gives its spot latency. */
  lemma DisplayLatencyOfListed(exchanges: seq<Exchange>, data: seq<LatencyData>, m: map<string, real>, i: nat)
    requires i < |exchanges|
    requires forall id :: id in m <==> (exists j :: 0 <= j < |exchanges| && exchanges[j].id == id) && MeanLatency(data, id).Some?
    requires forall id :: id in m ==> m[id] == MeanLatency(data, id).value
    ensures DisplayLatency(m, exchanges[i].id) == SpotLatency(data, exchanges[i].id)
  {
  }

  /** The mean latency lies within the least and the greatest touching latency. */
  lemma MeanLatencyBetween(data: seq<LatencyData>, id: string)
    requires MeanLatency(data, id).Some?
    ensures var xs := LatencyValues(Touching(data, id));
      MinSpread(xs).Finite? && MaxSpread(xs).Finite? &&
      MinSpread(xs).value as real <= MeanLatency(data, id).value <= MaxSpread(xs).value as real
  {
    MeanBetween(LatencyValues(Touching(data, id)));
  }

  /** The horizontal canvas position of a longitude. */
  function CanvasX(lon: real): real {
    ((lon + 180.0) / 360.0) * SIZE
  }

  /** The vertical canvas position of a latitude (north at the top). */
  function CanvasY(lat: real): real {
    ((90.0 - lat) / 180.0) * SIZE
  }

  /** Valid coordinates land on the canvas, and the mapping keeps (x) or
      reverses (y) the order of the coordinates. */
  lemma CanvasBounds(lat: real, lon: real)
    requires -90.0 <= lat <= 90.0 && -180.0 <= lon <= 180.0
    ensures 0.0 <= CanvasX(lon) <= SIZE && 0.0 <= CanvasY(lat) <= SIZE
    ensures CanvasX(-180.0) == 0.0 && CanvasX(180.0) == SIZE
    ensures CanvasY(90.0) == 0.0 && CanvasY(-90.0) == SIZE
  {
  }

  /** The spot colour of a band, as the 'r, g, b' text of `rgba(...)`. */
  function Rgb(s: LatencySimulator.Severity): string {
    match s
    case Low => "34, 197, 94"
    case Medium => "234, 179, 8"
    case High => "249, 115, 22"
    case Critical => "239, 68, 68"
  }

  /** The spot opacity of a band. */
  function Alpha(s: LatencySimulator.Severity): real {
    match s
    case Low => 0.5
    case Medium => 0.6
    case High => 0.7
    case Critical => 0.8
  }

  /** The `let color` / `let alpha` if-chain for a spot's latency. */
  method SpotStyle(latency: real) returns (color: string, alpha: real)
    ensures color == Rgb(LatencySimulator.SeverityOf(latency))
    ensures alpha == 0.5 + 0.1 * LatencySimulator.Rank(LatencySimulator.SeverityOf(latency)) as real
  {
    if latency < 50.0 {
      color := "34, 197, 94";
      alpha := 0.5;
    } else if latency < 100.0 {
      color := "234, 179, 8";
      alpha := 0.6;
    } else if latency < 150.0 {
      color := "249, 115, 22";
      alpha := 0.7;
    } else {
      color := "239, 68, 68";
      alpha := 0.8;
    }
  }

  /** A more severe band is drawn more opaque. */
  lemma AlphaIncreasing(a: LatencySimulator.Severity, b: LatencySimulator.Severity)
    requires LatencySimulator.Rank(a) < LatencySimulator.Rank(b)
    ensures Alpha(a) < Alpha(b)
  {
  }

  /** The value of a hexadecimal digit (lower-case letters). */
  function HexValue(c: char): nat {
    if '0' <= c <= '9' then c as nat - '0' as nat
    else if 'a' <= c <= 'f' then c as nat - 'a' as nat + 10
    else 0
  }

  /** The 'r, g, b' text of a '#rrggbb' colour. */
  function RgbText(hex: string): string
    requires |hex| == 7
  {
    var r := HexValue(hex[1]) * 16 + HexValue(hex[2]);
    var g := HexValue(hex[3]) * 16 + HexValue(hex[4]);
    var b := HexValue(hex[5]) * 16 + HexValue(hex[6]);
    IntToString(r) + ", " + IntToString(g) + ", " + IntToString(b)
  }

  /** The four colours: hex digits read, decimal digits written. */
  lemma LowRgb()
    ensures RgbText("#22c55e") == "34, 197, 94"
  {
    assert HexValue('2') == 2 && HexValue('c') == 12 && HexValue('5') == 5 && HexValue('e') == 14;
    assert NatToString(34) == "34" && NatToString(197) == "197" && NatToString(94) == "94";
  }

  lemma MediumRgb()
    ensures RgbText("#eab308") == "234, 179, 8"
  {
    assert HexValue('e') == 14 && HexValue('a') == 10 && HexValue('b') == 11 && HexValue('3') == 3;
    assert HexValue('0') == 0 && HexValue('8') == 8;
    assert NatToString(234) == "234" && NatToString(179) == "179" && NatToString(8) == "8";
  }

  lemma HighRgb()
    ensures RgbText("#f97316") == "249, 115, 22"
  {
    assert HexValue('f') == 15 && HexValue('9') == 9 && HexValue('7') == 7 && HexValue('3') == 3;
    assert HexValue('1') == 1 && HexValue('6') == 6;
    assert NatToString(249) == "249" && NatToString(115) == "115" && NatToString(22) == "22";
  }

  lemma CriticalRgb()
    ensures RgbText("#ef4444") == "239, 68, 68"
  {
    assert HexValue('e') == 14 && HexValue('f') == 15 && HexValue('4') == 4;
    assert NatToString(239) == "239" && NatToString(68) == "68";
  }

  /** The spot colour of each band is the band's `getLatencyColor` colour
      written as 'r, g, b'. */
  lemma RgbOfHex(s: LatencySimulator.Severity)
    ensures |LatencySimulator.Hex(s)| == 7
    ensures Rgb(s) == RgbText(LatencySimulator.Hex(s))
  {
    match s
    case Low => LowRgb();
    case Medium => MediumRgb();
    case High => HighRgb();
    case Critical => CriticalRgb();
  }

  /** The heat map uses the bands and the colours of `getLatencyColor`: for a
      whole-number latency the spot colour is that colour written as 'r, g, b'. */
  lemma SameBandsAsLatencyColor(latency: int)
    ensures |LatencySimulator.GetLatencyColor(latency)| == 7
    ensures Rgb(LatencySimulator.SeverityOf(latency as real)) == RgbText(LatencySimulator.GetLatencyColor(latency))
  {
    RgbOfHex(LatencySimulator.SeverityOf(latency as real));
  }

  /** One heat spot: its centre on the canvas, colour and opacity. */
  datatype Spot = Spot(x: real, y: real, color: string, alpha: real)

  /** The spot drawn for a listed exchange. */
  function SpotOf(ex: Exchange, data: seq<LatencyData>): Spot {
    var severity := LatencySimulator.SeverityOf(SpotLatency(data, ex.id));
    Spot(CanvasX(ex.lon), CanvasY(ex.lat), Rgb(severity), Alpha(severity))
  }

  /** The texture's two passes: the mean map, then one spot per exchange in list order. */
  method HeatSpots(exchanges: seq<Exchange>, data: seq<LatencyData>) returns (spots: seq<Spot>)
    ensures |spots| == |exchanges|
    ensures forall i :: 0 <= i < |spots| ==> spots[i] == SpotOf(exchanges[i], data)
  {
    var exchangeLatencies := ExchangeLatencies(exchanges, data);
    spots := [];
    for i := 0 to |exchanges|
      invariant |spots| == i
      invariant forall k :: 0 <= k < i ==> spots[k] == SpotOf(exchanges[k], data)
    {
      var ex := exchanges[i];
      var latency := DisplayLatency(exchangeLatencies, ex.id);
      DisplayLatencyOfListed(exchanges, data, exchangeLatencies, i);
      var x := CanvasX(ex.lon);
      var y := CanvasY(ex.lat);
      var color, alpha := SpotStyle(latency);
      spots := spots + [Spot(x, y, color, alpha)];
    }
  }
}
