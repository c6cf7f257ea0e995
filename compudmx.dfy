/**
 * The script-style controller: a global 512-entry channel list `data`, chase
 * generators that paint each lamp's colour triple into it in place and step a
 * cursor that wraps around, random scene lists, the colour and chase tables,
 * the choice of the active chase by name, and the clock tick that advances the
 * active chase before the frame is sent.
 */
module CompuDmx {
  import opened Results
  import opened Arith

  /** The first channel of each lamp; a lamp takes three channels: red, green, blue. */
  const LampChannels: seq<nat> := [0, 8]

  /** Length of the channel list sent as one DMX frame. */
  const DataLength := 512

  const Colors: map<string, seq<int>> := map[
    "red" := [255, 0, 0],
    "green" := [0, 255, 0],
    "blue" := [0, 0, 255],
    "yellow" := [255, 255, 0],
    "magenta" := [255, 0, 255],
    "cyan" := [0, 255, 255],
    "orange" := [255, 127, 0],
    "pink" := [255, 0, 127],
    "lime" := [127, 255, 0],
    "turquoise" := [0, 255, 127],
    "purple" := [127, 0, 255],
    "sky" := [0, 127, 255],
    "white" := [255, 255, 255],
    "black" := [0, 0, 0]]

  /** A colour entry: three channel values that each fit in a byte. */
  predicate IsTriple(c: seq<int>) {
    |c| == 3 && forall k :: 0 <= k < 3 ==> 0 <= c[k] < 256
  }

  /** Every entry of the colour table is a byte triple, so bytes(data) never fails on painted values. */
  lemma ColorsAreTriples()
    ensures forall name :: name in Colors ==> IsTriple(Colors[name])
  {
  }

  /** Every name of every scene is a key of the colour table. */
  predicate KnownNames(scenes: seq<seq<string>>) {
    forall i, j :: 0 <= i < |scenes| && 0 <= j < |scenes[i]| ==> scenes[i][j] in Colors
  }

  /** How many (channel, name) pairs zip(channels, scene) yields. */
  function Lamps(scene: seq<string>): (n: nat)
    ensures n <= |LampChannels| && n <= |scene|
  {
    if |scene| < |LampChannels| then |scene| else |LampChannels|
  }

  /** The channel list after the first `lamps` pairs of zip(channels, scene) have been painted. */
  function Paint(d: seq<int>, scene: seq<string>, lamps: nat): (r: seq<int>)
    requires |d| == DataLength && lamps <= Lamps(scene)
    requires forall j :: 0 <= j < |scene| ==> scene[j] in Colors
    ensures |r| == DataLength
  {
    if lamps == 0 then d
    else
      ColorsAreTriples();
      var prev := Paint(d, scene, lamps - 1);
      var ch := LampChannels[lamps - 1];
      var color := Colors[scene[lamps - 1]];
      prev[ch := color[0]][ch + 1 := color[1]][ch + 2 := color[2]]
  }

  /** One scene painted into the channel list. */
  function ApplyScene(d: seq<int>, scene: seq<string>): (r: seq<int>)
    requires |d| == DataLength
    requires forall j :: 0 <= j < |scene| ==> scene[j] in Colors
    ensures |r| == DataLength
  {
    Paint(d, scene, Lamps(scene))
  }

  /** Channel k belongs to lamp j: it is one of the three channels from LampChannels[j]. */
  predicate OnLamp(j: nat, k: int)
    requires j < |LampChannels|
  {
    LampChannels[j] <= k < LampChannels[j] + 3
  }

  /**
   * Painting sets each lamp's three channels to its colour and leaves every
   * other channel as it was: nothing is cleared between steps or chases.
   */
  lemma {:induction false} PaintEffect(d: seq<int>, scene: seq<string>, lamps: nat)
    requires |d| == DataLength && lamps <= Lamps(scene)
    requires forall j :: 0 <= j < |scene| ==> scene[j] in Colors
    ensures forall j, k :: 0 <= j < lamps && OnLamp(j, k) ==>
      Paint(d, scene, lamps)[k] == Colors[scene[j]][k - LampChannels[j]]
    ensures forall k :: 0 <= k < DataLength && (forall j :: 0 <= j < lamps ==> !OnLamp(j, k)) ==>
      Paint(d, scene, lamps)[k] == d[k]
  {
    ColorsAreTriples();
    if lamps > 0 {
      PaintEffect(d, scene, lamps - 1);
      var last := lamps - 1;
      var prev := Paint(d, scene, last);
      var ch := LampChannels[last];
      var color := Colors[scene[last]];
      assert Paint(d, scene, lamps) == prev[ch := color[0]][ch + 1 := color[1]][ch + 2 := color[2]];
      forall j, k | 0 <= j < lamps && OnLamp(j, k)
        ensures Paint(d, scene, lamps)[k] == Colors[scene[j]][k - LampChannels[j]]
      {
        if j < last {
          assert !OnLamp(last, k);
        } else if k == ch {
        } else if k == ch + 1 {
        } else {
          assert k == ch + 2;
        }
      }
      forall k | 0 <= k < DataLength && (forall j :: 0 <= j < lamps ==> !OnLamp(j, k))
        ensures Paint(d, scene, lamps)[k] == d[k]
      {
        assert !OnLamp(last, k);
      }
    }
  }

  /**
   * Painting a scene twice leaves what painting it once leaves: a chase of a
   * single scene, such as blackout, stops changing the channel list after its
   * first step.
   */
  lemma ApplySceneIdempotent(d: seq<int>, scene: seq<string>)
    requires |d| == DataLength
    requires forall j :: 0 <= j < |scene| ==> scene[j] in Colors
    ensures ApplyScene(ApplyScene(d, scene), scene) == ApplyScene(d, scene)
  {
    var once := ApplyScene(d, scene);
    var twice := ApplyScene(once, scene);
    var n := Lamps(scene);
    PaintEffect(d, scene, n);
    PaintEffect(once, scene, n);
    forall k | 0 <= k < DataLength ensures twice[k] == once[k] {
      if j :| 0 <= j < n && OnLamp(j, k) {
      }
    }
  }

  /** A painted channel list still holds byte values only. */
  lemma {:induction false} PaintKeepsBytes(d: seq<int>, scene: seq<string>, lamps: nat)
    requires |d| == DataLength && lamps <= Lamps(scene)
    requires forall j :: 0 <= j < |scene| ==> scene[j] in Colors
    requires forall k :: 0 <= k < DataLength ==> 0 <= d[k] < 256
    ensures forall k :: 0 <= k < DataLength ==> 0 <= Paint(d, scene, lamps)[k] < 256
  {
    ColorsAreTriples();
    if lamps > 0 {
      PaintKeepsBytes(d, scene, lamps - 1);
    }
  }

  /** The body of chase's `for` over zip(channels, scene): each lamp's triple written into `data`. */
  method PaintScene(data: array<int>, scene: seq<string>)
    requires data.Length == DataLength
    requires forall j :: 0 <= j < |scene| ==> scene[j] in Colors
    modifies data
    ensures data[..] == ApplyScene(old(data[..]), scene)
  {
    ghost var start := data[..];
    var j := 0;
    while j < Lamps(scene)
      invariant 0 <= j <= Lamps(scene)
      invariant data[..] == Paint(start, scene, j)
    {
      ColorsAreTriples();
      var color := Colors[scene[j]];
      var ch := LampChannels[j];
      data[ch] := color[0];
      data[ch + 1] := color[1];
      data[ch + 2] := color[2];
      j := j + 1;
    }
  }

  /**
   * A chase(scenes) generator: `i` is the generator's cursor. Each next()
   * paints scene i and advances i; when i has run past the end it is reset to
   * 0 without yielding, and scene 0 is painted in the same next().
   */
  class ChaseGen {
    const scenes: seq<seq<string>>
    var i: nat
    /** How many times the generator has yielded. */
    ghost var steps: nat

    ghost predicate Valid()
      reads this
    {
      && |scenes| > 0
      && KnownNames(scenes)
      && (steps == 0 ==> i == 0)
      && (steps > 0 ==> i == (steps - 1) % |scenes| + 1)
    }

    /** chase(scenes) creates a suspended generator with i = 0. With no scenes it would spin without yielding. */
    constructor (scenes: seq<seq<string>>)
      requires |scenes| > 0 && KnownNames(scenes)
      ensures Valid() && this.scenes == scenes && steps == 0
    {
      this.scenes := scenes;
      i := 0;
      steps := 0;
    }

    /** Before a step the cursor, wrapped back to 0 past the end, is the position in the cycle. */
    lemma CursorIsPosition()
      requires Valid()
      ensures (if i < |scenes| then i else 0) == steps % |scenes|
    {
      if steps > 0 {
        ModSucc(steps - 1, |scenes|);
      }
    }

    /** next(gen): paint the scene at position `steps` of the cycle into `data`, in place. */
    method Step(data: array<int>)
      requires Valid() && data.Length == DataLength
      modifies this, data
      ensures Valid() && steps == old(steps) + 1
      ensures data[..] == ApplyScene(old(data[..]), scenes[old(steps) % |scenes|])
    {
      ghost var start := data[..];
      ghost var w := if i < |scenes| then i else 0;
      CursorIsPosition();
      var yielded := false;
      while !yielded
        invariant i <= |scenes|
        invariant !yielded ==> data[..] == start && steps == old(steps) && (i == w || (i == |scenes| && w == 0))
        invariant yielded ==> data[..] == ApplyScene(start, scenes[w]) && steps == old(steps) + 1 && i == w + 1
        decreases if yielded then 0 else if i < |scenes| then 1 else 2
      {
        if i < |scenes| {
          PaintScene(data, scenes[i]);
          i := i + 1;
          steps := steps + 1;
          yielded := true;
        } else {
          i := 0;
        }
      }
    }
  }

  /** The table's fixed chases. */
  /** Yellow first here, the reverse of ChaseGenerator.MaydayScenes: each follows its own source table. */
  const MaydayScenes: seq<seq<string>> := [["yellow", "blue"], ["blue", "yellow"]]
  const ColorwheelScenes: seq<seq<string>> := [
    ["red", "orange"], ["orange", "yellow"], ["yellow", "lime"], ["lime", "green"],
    ["green", "turquoise"], ["turquoise", "cyan"], ["cyan", "sky"], ["sky", "blue"],
    ["blue", "purple"], ["purple", "magenta"], ["magenta", "pink"], ["pink", "red"]]
  const BlackoutScenes: seq<seq<string>> := [["black", "black"]]

  /** Lamps and scenes of the chase that "random" builds. */
  const RandomLamps := 2
  const RandomScenes := 8

  /** a * b as repeated addition, so that counting draws row by row stays linear. */
  function Product(a: nat, b: nat): nat {
    if a == 0 then 0 else Product(a - 1, b) + b
  }

  lemma {:induction false} ProductIsMul(a: nat, b: nat)
    ensures Product(a, b) == a * b
  {
    if a > 0 {
      ProductIsMul(a - 1, b);
      MulSub(a, 1, b);
    }
  }

  /** The rows of a scene list laid end to end. */
  function Flatten(rows: seq<seq<string>>): seq<string> {
    if rows == [] then [] else Flatten(rows[..|rows| - 1]) + rows[|rows| - 1]
  }

  /** Appending a name to the last row appends it to the flattened list. */
  lemma FlattenGrowLast(rows: seq<seq<string>>, p: string)
    requires |rows| > 0
    ensures Flatten(rows[|rows| - 1 := rows[|rows| - 1] + [p]]) == Flatten(rows) + [p]
  {
    var grown := rows[|rows| - 1 := rows[|rows| - 1] + [p]];
    assert grown[..|grown| - 1] == rows[..|rows| - 1];
  }

  /** One more draw taken into the last row keeps the rows equal to the draws taken so far. */
  lemma TakeDraw(rows: seq<seq<string>>, picks: seq<string>, k: nat)
    requires |rows| > 0 && k < |picks| && Flatten(rows) == picks[..k]
    ensures Flatten(rows[|rows| - 1 := rows[|rows| - 1] + [picks[k]]]) == picks[..k + 1]
  {
    FlattenGrowLast(rows, picks[k]);
    assert picks[..k + 1] == picks[..k] + [picks[k]];
  }

  /** Starting a new, empty row leaves the flattened list as it was. */
  lemma FlattenNewRow(rows: seq<seq<string>>)
    ensures Flatten(rows + [[]]) == Flatten(rows)
  {
    assert (rows + [[]])[..|rows|] == rows;
  }

  /** Every name in every row is a key of `colors`. */
  predicate RowsIn(rows: seq<seq<string>>, colors: map<string, seq<int>>) {
    forall a, b :: 0 <= a < |rows| && 0 <= b < |rows[a]| ==> rows[a][b] in colors
  }

  /**
   * randlights(nlamps, nscenes, colors): nscenes lists of nlamps keys of
   * `colors`. `picks` stands for the successive random.choice draws, in the
   * order the nested loops make them.
   */
  method RandLights(nlamps: nat, nscenes: nat, colors: map<string, seq<int>>, picks: seq<string>)
    returns (res: seq<seq<string>>)
    requires |picks| == nscenes * nlamps
    requires forall p :: p in picks ==> p in colors
    ensures |res| == nscenes
    ensures forall i :: 0 <= i < nscenes ==> |res[i]| == nlamps
    ensures Flatten(res) == picks
    ensures forall i, j :: 0 <= i < nscenes && 0 <= j < nlamps ==> res[i][j] in colors
  {
    ProductIsMul(nscenes, nlamps);
    res := [];
    var k := 0;
    for i := 0 to nscenes
      invariant |res| == i && k + Product(nscenes - i, nlamps) == |picks|
      invariant forall a :: 0 <= a < i ==> |res[a]| == nlamps
      invariant Flatten(res) == picks[..k]
      invariant RowsIn(res, colors)
    {
      FlattenNewRow(res);
      res := res + [[]];
      for j := 0 to nlamps
        invariant |res| == i + 1 && |res[i]| == j
        invariant k + (nlamps - j) + Product(nscenes - i - 1, nlamps) == |picks|
        invariant forall a :: 0 <= a < i ==> |res[a]| == nlamps
        invariant Flatten(res) == picks[..k]
        invariant RowsIn(res, colors)
      {
        assert picks[k] in colors;
        TakeDraw(res, picks, k);
        res := res[i := res[i] + [picks[k]]];
        k := k + 1;
      }
    }
    assert picks[..k] == picks;
  }

  /**
   * The running controller: the global channel list, the three fixed chase
   * generators of the table (created once), and the active generator `gens`.
   */
  class Console {
    const data: array<int>
    const mayday: ChaseGen
    const colorwheel: ChaseGen
    const blackout: ChaseGen
    var gens: ChaseGen

    ghost predicate Valid()
      reads this, data, mayday, colorwheel, blackout, gens
    {
      && data.Length == DataLength
      && (forall k :: 0 <= k < DataLength ==> 0 <= data[k] < 256)
      && mayday.Valid() && mayday.scenes == MaydayScenes
      && colorwheel.Valid() && colorwheel.scenes == ColorwheelScenes
      && blackout.Valid() && blackout.scenes == BlackoutScenes
      && gens.Valid()
    }

    /** Module start-up: data = [0] * 512, the chase table, and the default chase blackout. */
    constructor ()
      ensures Valid() && fresh(data) && data[..] == seq(DataLength, _ => 0)
      ensures fresh(mayday) && fresh(colorwheel) && fresh(blackout)
      ensures gens == blackout && blackout.steps == 0
      ensures mayday.steps == 0 && colorwheel.steps == 0
      ensures mayday.i == 0 && colorwheel.i == 0 && blackout.i == 0
    {
      data := new int[DataLength](_ => 0);
      mayday := new ChaseGen(MaydayScenes);
      colorwheel := new ChaseGen(ColorwheelScenes);
      var b := new ChaseGen(BlackoutScenes);
      blackout := b;
      gens := b;
    }

    /**
     * The chase-selection part of one repl round for the input `ins`: a fixed
     * chase is reselected with its cursor where it was left, "random" builds a
     * fresh generator over new random scenes (`picks` are the draws), any other
     * input leaves the active chase alone. `quit` is set for "exit".
     */
    method Select(ins: string, picks: seq<string>) returns (quit: bool)
      requires Valid()
      requires ins == "random" ==> |picks| == RandomScenes * RandomLamps
      requires ins == "random" ==> forall p :: p in picks ==> p in Colors
      modifies this
      ensures Valid() && quit == (ins == "exit")
      ensures ins == "mayday" ==> gens == mayday
      ensures ins == "colorwheel" ==> gens == colorwheel
      ensures ins == "blackout" ==> gens == blackout
      ensures ins == "random" ==>
                fresh(gens) && gens.steps == 0 && |gens.scenes| == RandomScenes &&
                (forall s :: 0 <= s < RandomScenes ==> |gens.scenes[s]| == RandomLamps) &&
                Flatten(gens.scenes) == picks
      ensures ins !in {"mayday", "colorwheel", "blackout", "random"} ==> gens == old(gens)
      ensures mayday.steps == old(mayday.steps) && colorwheel.steps == old(colorwheel.steps)
      ensures blackout.steps == old(blackout.steps)
    {
      if ins == "random" {
        var scenes := RandLights(RandomLamps, RandomScenes, Colors, picks);
        gens := new ChaseGen(scenes);
      } else if ins == "mayday" {
        gens := mayday;
      } else if ins == "colorwheel" {
        gens := colorwheel;
      } else if ins == "blackout" {
        gens := blackout;
      }
      quit := ins == "exit";
    }

    /** One clock tick: advance the active chase by one step, then hand bytes(data) to the sender. */
    method Tick() returns (frame: seq<Byte>)
      requires Valid()
      modifies data, gens
      ensures Valid() && gens == old(gens) && gens.steps == old(gens.steps) + 1
      ensures data[..] == ApplyScene(old(data[..]), gens.scenes[old(gens.steps) % |gens.scenes|])
      ensures |frame| == DataLength && forall k :: 0 <= k < DataLength ==> frame[k] == data[k]
    {
      ghost var before := data[..];
      gens.Step(data);
      var scene := gens.scenes[old(gens.steps) % |gens.scenes|];
      PaintKeepsBytes(before, scene, Lamps(scene));
      assert forall k :: 0 <= k < DataLength ==> 0 <= data[k] < 256;
      frame := [];
      for k := 0 to DataLength
        invariant |frame| == k && forall m :: 0 <= m < k ==> frame[m] == data[m]
      {
        frame := frame + [data[k] as Byte];
      }
    }
  }
}
