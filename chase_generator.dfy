/**
 * Building chases from colour names: the alias table, the resolution of a
 * colour name, make_chase (lamp channels zipped with per-scene colour names),
 * and the named presets iso, blackout, mayday, colorwheel and random.
 *
 * A chase is represented here by the list of scenes it cycles through; the
 * DataClasses.Chase class wraps such a list with its cursor.
 */
module ChaseGenerator {
  import opened Results
  import opened DataClasses

  /** The first RGB channel of each lamp when none are given. */
  const DefaultChannels: seq<nat> := [0, 8]

  /** The alias names, in the order the table lists them. */
  const AliasNames: seq<string> := [
    "red", "green", "blue", "yellow", "magenta", "cyan", "orange",
    "pink", "lime", "turquoise", "purple", "sky", "white", "black"]

  const ColorAliases: map<string, string> := map[
    "red" := "ff0000",
    "green" := "00ff00",
    "blue" := "0000ff",
    "yellow" := "ffff00",
    "magenta" := "ff00ff",
    "cyan" := "00ffff",
    "orange" := "ff7f00",
    "pink" := "ff007f",
    "lime" := "7fff00",
    "turquoise" := "00ff7f",
    "purple" := "7f00ff",
    "sky" := "007fff",
    "white" := "ffffff",
    "black" := "000000"]

  predicate IsLowerHexDigit(c: char) {
    '0' <= c <= '9' || 'a' <= c <= 'f'
  }

  /** Six lower-case hex digits: what RGB accepts and bytes.hex() prints back unchanged. */
  predicate IsLowerHex6(s: string) {
    |s| == 6 && forall i :: 0 <= i < 6 ==> IsLowerHexDigit(s[i])
  }

  lemma LowerHexIsHex(s: string)
    requires IsLowerHex6(s)
    ensures |s| == 6 && AllHex(s) && LowerString(s) == s
  {
  }

  /** Every alias value is six lower-case hex digits. */
  lemma AliasTableWellFormed()
    ensures forall name :: name in ColorAliases <==> name in AliasNames
    ensures forall name :: name in ColorAliases ==> IsLowerHex6(ColorAliases[name])
  {
  }

  /** Every name of a scene list that is drawn from the alias table resolves. */
  lemma AliasScenesResolve(scenes: seq<seq<string>>)
    requires forall i, j :: 0 <= i < |scenes| && 0 <= j < |scenes[i]| ==> scenes[i][j] in ColorAliases
    ensures forall i, j :: 0 <= i < |scenes| && 0 <= j < |scenes[i]| ==> ColorFromAlias(scenes[i][j]).Ok?
  {
    forall i, j | 0 <= i < |scenes| && 0 <= j < |scenes[i]| ensures ColorFromAlias(scenes[i][j]).Ok? {
      AliasResolves(scenes[i][j]);
    }
  }

  /**
   * color_from_alias(value): the alias table first, then a '#' followed by hex
   * digits, otherwise "unknown color". On an empty name the '#' test indexes
   * past the end.
   */
  function ColorFromAlias(value: string): (r: Result<RGB>)
    ensures r.Ok? ==> |r.value| == 3
  {
    if value in ColorAliases then NewRGB(ColorAliases[value])
    else if |value| == 0 then Err(EmptyColorName)
    else if value[0] == '#' then NewRGB(value[1..])
    else Err(UnknownColor)
  }

  /** An alias resolves to the colour whose hex rendering is its table entry. */
  lemma AliasResolves(name: string)
    requires name in ColorAliases
    ensures ColorFromAlias(name).Ok?
    ensures ToHex(ColorFromAlias(name).value) == ColorAliases[name]
  {
    AliasTableWellFormed();
    LowerHexIsHex(ColorAliases[name]);
    RGBHexRoundTrip(ColorAliases[name]);
  }

  /** '#' followed by the hex rendering of any colour resolves to that colour. */
  lemma HashLiteralResolves(c: RGB)
    requires |c| == 3
    ensures ColorFromAlias("#" + ToHex(c)) == Ok(c)
  {
    var value := "#" + ToHex(c);
    assert value !in ColorAliases by {
      AliasTableWellFormed();
      assert value[0] == '#';
    }
    assert value[1..] == ToHex(c);
    RGBFromOwnHex(c);
  }

  /** A name that is neither an alias nor a '#' literal is refused. */
  lemma UnknownNameRefused(value: string)
    requires value !in ColorAliases
    requires value == [] || value[0] != '#'
    ensures ColorFromAlias(value) == Err(if value == [] then EmptyColorName else UnknownColor)
  {
  }

  function Min(a: nat, b: nat): nat {
    if a < b then a else b
  }

  /** [(channel, color_from_alias(color)) for channel, color in zip(channels, scene)] */
  function ResolveWrites(channels: seq<nat>, names: seq<string>): (r: Result<seq<Write>>)
    decreases |names|
    ensures r.Ok? ==> |r.value| == Min(|channels|, |names|)
  {
    if |channels| == 0 || |names| == 0 then Ok([])
    else
      var color :- ColorFromAlias(names[0]);
      var rest :- ResolveWrites(channels[1..], names[1..]);
      Ok([(channels[0], color)] + rest)
  }

  /** The writes of one scene: the i-th lamp channel with the i-th colour, up to the shorter list. */
  lemma {:induction false} ResolveWritesSpec(channels: seq<nat>, names: seq<string>)
    decreases |names|
    ensures ResolveWrites(channels, names).Ok? <==>
      forall i :: 0 <= i < Min(|channels|, |names|) ==> ColorFromAlias(names[i]).Ok?
    ensures ResolveWrites(channels, names).Ok? ==>
      var ws := ResolveWrites(channels, names).value;
      |ws| == Min(|channels|, |names|) &&
      forall i :: 0 <= i < |ws| ==> ws[i] == (channels[i], ColorFromAlias(names[i]).value)
  {
    if |channels| > 0 && |names| > 0 {
      ResolveWritesSpec(channels[1..], names[1..]);
      assert forall i :: 0 < i < Min(|channels|, |names|) ==> names[1..][i - 1] == names[i];
      assert forall i :: 0 < i < Min(|channels|, |names|) ==> channels[1..][i - 1] == channels[i];
    }
  }

  /** Scene(*[(channel, colour) ...]) for one list of colour names. */
  function MakeScene(channels: seq<nat>, names: seq<string>): (r: Result<Scene>)
    ensures r.Ok? ==> |r.value| == Channels
  {
    var writes :- ResolveWrites(channels, names);
    SceneOf(writes)
  }

  /** make_chase: one scene per entry of `scenes`, in order; the first failure is raised. */
  function MakeChase(channels: seq<nat>, scenes: seq<seq<string>>): (r: Result<seq<Scene>>)
    decreases |scenes|
    ensures r.Ok? ==> |r.value| == |scenes| && forall i :: 0 <= i < |scenes| ==> |r.value[i]| == Channels
  {
    if scenes == [] then Ok([])
    else
      var first :- MakeScene(channels, scenes[0]);
      var rest :- MakeChase(channels, scenes[1..]);
      Ok([first] + rest)
  }

  /** make_chase succeeds exactly when every scene can be built, and then yields them in order. */
  lemma {:induction false} MakeChaseSpec(channels: seq<nat>, scenes: seq<seq<string>>)
    decreases |scenes|
    ensures MakeChase(channels, scenes).Ok? <==>
      forall i :: 0 <= i < |scenes| ==> MakeScene(channels, scenes[i]).Ok?
    ensures MakeChase(channels, scenes).Ok? ==>
      |MakeChase(channels, scenes).value| == |scenes| &&
      forall i :: 0 <= i < |scenes| ==>
        MakeScene(channels, scenes[i]) == Ok(MakeChase(channels, scenes).value[i])
  {
    if scenes != [] {
      MakeChaseSpec(channels, scenes[1..]);
      assert forall i :: 0 < i < |scenes| ==> scenes[1..][i - 1] == scenes[i];
    }
  }

  /** Every lamp's three colour bytes lie inside the frame. */
  predicate LampsFit(channels: seq<nat>) {
    forall i :: 0 <= i < |channels| ==> channels[i] + 3 <= Channels
  }

  /** No two lamps share a channel. */
  predicate LampsApart(channels: seq<nat>) {
    forall i, j :: 0 <= i < j < |channels| ==> channels[i] + 3 <= channels[j] || channels[j] + 3 <= channels[i]
  }

  /** The three bytes of the lamp whose first channel is ch. */
  function Lamp(frame: Scene, ch: nat): seq<Byte>
    requires ch + 3 <= |frame|
  {
    frame[ch..ch + 3]
  }

  /** The default lamp layout fits the frame and has no shared channels. */
  lemma DefaultChannelsSound()
    ensures LampsFit(DefaultChannels) && LampsApart(DefaultChannels)
  {
  }

  /** Three-byte writes that fit and do not overlap each show through, on a zero background. */
  lemma ApartWritesShow(ws: seq<Write>)
    requires forall i :: 0 <= i < |ws| ==> |ws[i].1| == 3 && ws[i].0 + 3 <= Channels
    requires forall i, j :: 0 <= i < j < |ws| ==> ws[i].0 + 3 <= ws[j].0 || ws[j].0 + 3 <= ws[i].0
    ensures SceneOf(ws).Ok? && |SceneOf(ws).value| == Channels
    ensures forall j :: 0 <= j < |ws| ==> SceneOf(ws).value[ws[j].0..ws[j].0 + 3] == ws[j].1
    ensures forall k :: 0 <= k < Channels && (forall j :: 0 <= j < |ws| ==> !Covers(ws[j], k)) ==>
      SceneOf(ws).value[k] == 0
  {
    SceneOfSpec(ws);
    var s := SceneOf(ws).value;
    forall j | 0 <= j < |ws| ensures s[ws[j].0..ws[j].0 + 3] == ws[j].1 {
      forall k | ws[j].0 <= k < ws[j].0 + 3 ensures s[k] == ws[j].1[k - ws[j].0] {
        assert Covers(ws[j], k);
        forall j' | j < j' < |ws| ensures !Covers(ws[j'], k) {
        }
      }
    }
  }

  /**
   * For lamps that fit and do not overlap, a scene shows each lamp in its own
   * colour and leaves every other channel at zero.
   */
  lemma MakeSceneLamps(channels: seq<nat>, names: seq<string>)
    requires LampsFit(channels) && LampsApart(channels)
    requires forall i :: 0 <= i < Min(|channels|, |names|) ==> ColorFromAlias(names[i]).Ok?
    ensures MakeScene(channels, names).Ok?
    ensures |MakeScene(channels, names).value| == Channels
    ensures forall j :: 0 <= j < Min(|channels|, |names|) ==>
      Lamp(MakeScene(channels, names).value, channels[j]) == ColorFromAlias(names[j]).value
    ensures forall k ::
      (0 <= k < Channels &&
       (forall j :: 0 <= j < Min(|channels|, |names|) ==> !(channels[j] <= k < channels[j] + 3))) ==>
      MakeScene(channels, names).value[k] == 0
  {
    ResolveWritesSpec(channels, names);
    var ws := ResolveWrites(channels, names).value;
    ApartWritesShow(ws);
    var s := SceneOf(ws).value;
    forall k | 0 <= k < Channels &&
      (forall j :: 0 <= j < Min(|channels|, |names|) ==> !(channels[j] <= k < channels[j] + 3))
      ensures s[k] == 0
    {
      assert forall j :: 0 <= j < |ws| ==> !Covers(ws[j], k);
    }
  }

  /** make_chase over scenes whose names all resolve, on lamps that fit and do not overlap. */
  lemma MakeChaseLamps(channels: seq<nat>, scenes: seq<seq<string>>)
    requires LampsFit(channels) && LampsApart(channels)
    requires forall i, j :: 0 <= i < |scenes| && 0 <= j < |scenes[i]| ==> ColorFromAlias(scenes[i][j]).Ok?
    ensures MakeChase(channels, scenes).Ok?
    ensures |MakeChase(channels, scenes).value| == |scenes|
    ensures forall i :: 0 <= i < |scenes| ==> |MakeChase(channels, scenes).value[i]| == Channels
    ensures forall i, j :: 0 <= i < |scenes| && 0 <= j < Min(|channels|, |scenes[i]|) ==>
      Lamp(MakeChase(channels, scenes).value[i], channels[j]) == ColorFromAlias(scenes[i][j]).value
  {
    forall i | 0 <= i < |scenes| ensures MakeScene(channels, scenes[i]).Ok? {
      MakeSceneLamps(channels, scenes[i]);
    }
    MakeChaseSpec(channels, scenes);
    forall i | 0 <= i < |scenes|
      ensures |MakeChase(channels, scenes).value[i]| == Channels
      ensures forall j :: 0 <= j < Min(|channels|, |scenes[i]|) ==>
        Lamp(MakeChase(channels, scenes).value[i], channels[j]) == ColorFromAlias(scenes[i][j]).value
    {
      MakeSceneLamps(channels, scenes[i]);
    }
  }

  // ---------------------------------------------------------------------------
  // Presets
  // ---------------------------------------------------------------------------

  /** `n` copies of one colour name: one per lamp. */
  function Fill(name: string, n: nat): (r: seq<string>)
    ensures |r| == n && forall i :: 0 <= i < n ==> r[i] == name
  {
    seq(n, _ => name)
  }

  /**
   * gen_random(scenes): `draws` stands for the random.choices calls, one list
   * of len(channels) alias names per scene.
   */
  function GenRandom(channels: seq<nat>, scenes: nat, draws: seq<seq<string>>): (r: Result<seq<Scene>>)
    requires |draws| == scenes
    requires forall i :: 0 <= i < |draws| ==> |draws[i]| == |channels|
    requires forall i, j :: 0 <= i < |draws| && 0 <= j < |draws[i]| ==> draws[i][j] in ColorAliases
    ensures r.Ok? ==> |r.value| == scenes
  {
    MakeChase(channels, draws)
  }

  /** A random chase on lamps that fit has the requested number of scenes, each lamp in its drawn colour. */
  lemma GenRandomSpec(channels: seq<nat>, scenes: nat, draws: seq<seq<string>>)
    requires |draws| == scenes
    requires forall i :: 0 <= i < |draws| ==> |draws[i]| == |channels|
    requires forall i, j :: 0 <= i < |draws| && 0 <= j < |draws[i]| ==> draws[i][j] in ColorAliases
    requires LampsFit(channels) && LampsApart(channels)
    ensures GenRandom(channels, scenes, draws).Ok?
    ensures |GenRandom(channels, scenes, draws).value| == scenes
    ensures forall i :: 0 <= i < scenes ==> |GenRandom(channels, scenes, draws).value[i]| == Channels
    ensures forall i, j :: 0 <= i < scenes && 0 <= j < |channels| ==>
      ToHex(Lamp(GenRandom(channels, scenes, draws).value[i], channels[j])) == ColorAliases[draws[i][j]]
  {
    AliasScenesResolve(draws);
    MakeChaseLamps(channels, draws);
    forall i, j | 0 <= i < scenes && 0 <= j < |channels|
      ensures ToHex(Lamp(GenRandom(channels, scenes, draws).value[i], channels[j])) == ColorAliases[draws[i][j]]
    {
      AliasResolves(draws[i][j]);
    }
  }

  /** gen_iso(color1, color2='#000000'): all lamps color1, then all lamps color2. */
  function GenIso(channels: seq<nat>, color1: string, color2: string := "#000000"): (r: Result<seq<Scene>>)
    ensures r.Ok? ==> |r.value| == 2
  {
    MakeChase(channels, [Fill(color1, |channels|), Fill(color2, |channels|)])
  }

  /** gen_iso has two scenes: every lamp in the first colour, then every lamp in the second. */
  lemma GenIsoSpec(channels: seq<nat>, color1: string, color2: string)
    requires LampsFit(channels) && LampsApart(channels)
    requires ColorFromAlias(color1).Ok? && ColorFromAlias(color2).Ok?
    ensures GenIso(channels, color1, color2).Ok?
    ensures |GenIso(channels, color1, color2).value| == 2
    ensures |GenIso(channels, color1, color2).value[0]| == |GenIso(channels, color1, color2).value[1]| == Channels
    ensures forall j :: 0 <= j < |channels| ==>
      Lamp(GenIso(channels, color1, color2).value[0], channels[j]) == ColorFromAlias(color1).value &&
      Lamp(GenIso(channels, color1, color2).value[1], channels[j]) == ColorFromAlias(color2).value
  {
    var scenes := [Fill(color1, |channels|), Fill(color2, |channels|)];
    MakeChaseLamps(channels, scenes);
  }

  /** '#000000' is the colour with all three bytes zero. */
  lemma BlackLiteral()
    ensures ColorFromAlias("#000000") == Ok([0, 0, 0])
  {
    assert "#000000" !in ColorAliases;
    assert "#000000"[1..] == "000000";
  }

  /** A scene in which every lamp is '#000000'-black is 512 zero bytes. */
  lemma DarkSceneIsZeros(channels: seq<nat>, names: seq<string>)
    requires LampsFit(channels) && LampsApart(channels)
    requires forall i :: 0 <= i < Min(|channels|, |names|) ==> ColorFromAlias(names[i]) == Ok([0, 0, 0])
    ensures MakeScene(channels, names) == Ok(Zeros(Channels))
  {
    MakeSceneLamps(channels, names);
    var s := MakeScene(channels, names).value;
    forall k | 0 <= k < Channels ensures s[k] == 0 {
      if j :| 0 <= j < Min(|channels|, |names|) && channels[j] <= k < channels[j] + 3 {
        assert s[k] == Lamp(s, channels[j])[k - channels[j]];
      }
    }
    assert s == Zeros(Channels);
  }

  /** With the default second colour, the second iso scene is all lamps off: 512 zero bytes. */
  lemma GenIsoDefaultIsDark(channels: seq<nat>, color1: string)
    requires LampsFit(channels) && LampsApart(channels)
    requires ColorFromAlias(color1).Ok?
    ensures GenIso(channels, color1).Ok? && |GenIso(channels, color1).value| == 2
    ensures GenIso(channels, color1).value[1] == Zeros(Channels)
  {
    BlackLiteral();
    var names := Fill("#000000", |channels|);
    var scenes := [Fill(color1, |channels|), names];
    MakeChaseLamps(channels, scenes);
    MakeChaseSpec(channels, scenes);
    DarkSceneIsZeros(channels, names);
    assert scenes[1] == names;
  }

  /** gen_blackout: a chase of one scene on channel 0 in '#000000'. */
  function GenBlackout(): (r: Result<seq<Scene>>)
    ensures r.Ok? ==> |r.value| == 1
  {
    MakeChase([0], [["#000000"]])
  }

  /** The blackout chase is one scene of 512 zero bytes. */
  lemma GenBlackoutSpec()
    ensures GenBlackout() == Ok([Zeros(Channels)])
  {
    BlackLiteral();
    DarkSceneIsZeros([0], ["#000000"]);
    MakeChaseSpec([0], [["#000000"]]);
    var r := GenBlackout().value;
    assert |r| == 1 && r[0] == Zeros(Channels);
    assert r == [Zeros(Channels)];
  }

  /** The first two lamp channels, as channels[0:2] slices them. */
  function FirstTwo(channels: seq<nat>): (r: seq<nat>)
    ensures |r| == Min(|channels|, 2) && r == channels[..|r|]
  {
    if |channels| < 2 then channels else channels[..2]
  }

  /** Blue first here; the script-style controller's own mayday table starts with yellow. */
  const MaydayScenes: seq<seq<string>> := [["blue", "yellow"], ["yellow", "blue"]]

  /** gen_mayday: the first two lamps alternate between blue and yellow. */
  function GenMayday(channels: seq<nat>): (r: Result<seq<Scene>>)
    ensures r.Ok? ==> |r.value| == 2
  {
    MakeChase(FirstTwo(channels), MaydayScenes)
  }

  /** Mayday has two scenes; lamp 1 is blue then yellow, lamp 2 yellow then blue. */
  lemma GenMaydaySpec(channels: seq<nat>)
    requires |channels| >= 2
    requires LampsFit(FirstTwo(channels)) && LampsApart(FirstTwo(channels))
    ensures GenMayday(channels).Ok? && |GenMayday(channels).value| == 2
    ensures |GenMayday(channels).value[0]| == |GenMayday(channels).value[1]| == Channels
    ensures Lamp(GenMayday(channels).value[0], channels[0]) == [0, 0, 255]
    ensures Lamp(GenMayday(channels).value[0], channels[1]) == [255, 255, 0]
    ensures Lamp(GenMayday(channels).value[1], channels[0]) == Lamp(GenMayday(channels).value[0], channels[1])
    ensures Lamp(GenMayday(channels).value[1], channels[1]) == Lamp(GenMayday(channels).value[0], channels[0])
  {
    assert ColorFromAlias("blue") == Ok([0, 0, 255]);
    assert ColorFromAlias("yellow") == Ok([255, 255, 0]);
    MakeChaseLamps(FirstTwo(channels), MaydayScenes);
  }

  const ColorwheelScenes: seq<seq<string>> := [
    ["red", "orange"], ["orange", "yellow"], ["yellow", "lime"], ["lime", "green"],
    ["green", "turquoise"], ["turquoise", "cyan"], ["cyan", "sky"], ["sky", "blue"],
    ["blue", "purple"], ["purple", "magenta"], ["magenta", "pink"], ["pink", "red"]]

  /** gen_colorwheel: the first two lamps rotate through twelve hues. */
  function GenColorwheel(channels: seq<nat>): (r: Result<seq<Scene>>)
    ensures r.Ok? ==> |r.value| == 12
  {
    MakeChase(FirstTwo(channels), ColorwheelScenes)
  }

  /** In the colour-wheel table the second lamp leads the first by one scene. */
  lemma ColorwheelNamesRotate()
    ensures |ColorwheelScenes| == 12
    ensures forall k :: 0 <= k < 12 ==>
      |ColorwheelScenes[k]| == 2 && ColorwheelScenes[k][0] in ColorAliases && ColorwheelScenes[k][1] in ColorAliases &&
      ColorwheelScenes[k][1] == ColorwheelScenes[(k + 1) % 12][0]
  {
  }

  /** The position after k in a cycle of n. */
  function Succ(k: nat, n: nat): nat {
    if k + 1 < n then k + 1 else 0
  }

  /**
   * Two lamps over a cycle of scenes in which the second name of each scene is
   * the first name of the next: lamp 2 of scene k shows lamp 1 of scene k + 1.
   */
  lemma RotatingChase(two: seq<nat>, scenes: seq<seq<string>>)
    requires |two| == 2 && LampsFit(two) && LampsApart(two)
    requires forall k :: 0 <= k < |scenes| ==> |scenes[k]| == 2
    requires forall i, j :: 0 <= i < |scenes| && 0 <= j < |scenes[i]| ==> ColorFromAlias(scenes[i][j]).Ok?
    requires forall k :: 0 <= k < |scenes| ==> scenes[k][1] == scenes[Succ(k, |scenes|)][0]
    ensures MakeChase(two, scenes).Ok? && |MakeChase(two, scenes).value| == |scenes|
    ensures forall k :: 0 <= k < |scenes| ==> |MakeChase(two, scenes).value[k]| == Channels
    ensures forall k :: 0 <= k < |scenes| ==>
      Lamp(MakeChase(two, scenes).value[k], two[1]) ==
      Lamp(MakeChase(two, scenes).value[Succ(k, |scenes|)], two[0])
  {
    MakeChaseLamps(two, scenes);
    var r := MakeChase(two, scenes).value;
    forall k | 0 <= k < |scenes|
      ensures Lamp(r[k], two[1]) == Lamp(r[Succ(k, |scenes|)], two[0])
    {
      var next := Succ(k, |scenes|);
      assert Lamp(r[k], two[1]) == ColorFromAlias(scenes[k][1]).value;
      assert Lamp(r[next], two[0]) == ColorFromAlias(scenes[next][0]).value;
    }
  }

  lemma SuccWraps(k: nat, n: nat)
    requires k < n
    ensures Succ(k, n) == (k + 1) % n
  {
  }

  /** The colour-wheel table meets the requirements of RotatingChase. */
  lemma ColorwheelMeetsRotation()
    ensures |ColorwheelScenes| == 12
    ensures forall k :: 0 <= k < 12 ==> |ColorwheelScenes[k]| == 2
    ensures forall i, j :: 0 <= i < 12 && 0 <= j < |ColorwheelScenes[i]| ==> ColorFromAlias(ColorwheelScenes[i][j]).Ok?
    ensures forall k :: 0 <= k < 12 ==> ColorwheelScenes[k][1] == ColorwheelScenes[Succ(k, 12)][0]
  {
    ColorwheelNamesRotate();
    AliasScenesResolve(ColorwheelScenes);
    forall k | 0 <= k < 12 ensures Succ(k, 12) == (k + 1) % 12 {
      SuccWraps(k, 12);
    }
  }

  /** Colour wheel: twelve scenes, lamp 2 in scene k shows what lamp 1 shows in scene (k + 1) mod 12. */
  lemma GenColorwheelSpec(channels: seq<nat>)
    requires |channels| >= 2
    requires LampsFit(FirstTwo(channels)) && LampsApart(FirstTwo(channels))
    ensures GenColorwheel(channels).Ok? && |GenColorwheel(channels).value| == 12
    ensures forall k :: 0 <= k < 12 ==> |GenColorwheel(channels).value[k]| == Channels
    ensures forall k :: 0 <= k < 12 ==>
      Lamp(GenColorwheel(channels).value[k], channels[1]) ==
      Lamp(GenColorwheel(channels).value[(k + 1) % 12], channels[0])
  {
    ColorwheelMeetsRotation();
    var two := FirstTwo(channels);
    RotatingChase(two, ColorwheelScenes);
    var r := GenColorwheel(channels).value;
    forall k | 0 <= k < 12
      ensures Lamp(r[k], channels[1]) == Lamp(r[(k + 1) % 12], channels[0])
    {
      SuccWraps(k, 12);
    }
    assert two[0] == channels[0] && two[1] == channels[1];
  }
}
