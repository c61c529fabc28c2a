/**
 * The style record shared by the generator and the batch generator, and the
 * record updates the style customizer applies to it: presets, colour
 * randomisation and the single-field setters behind each input.
 */
module StyleCustomizer {
  import opened Common

  /**
   * The `qrStyle` record.  `frameStyle` stays a string because the compositor
   * compares it with string literals.  `name` is absent until a preset is applied:
   * spreading a preset over the record copies the preset's name in as well.
   */
  datatype QrStyle = QrStyle(
    fgColor: Colour,
    bgColor: Colour,
    eyeRadius: int,
    frameStyle: string,
    frameColor: Colour,
    pattern: string,
    name: Option<string>)

  datatype Preset = Preset(name: string, fgColor: Colour, bgColor: Colour, frameStyle: string, frameColor: Colour)

  /** The values offered by the three frame-style buttons. */
  function FrameStyleOptions(): (opts: seq<string>)
    ensures |opts| == 3 && opts[0] == "none"
  {
    ["none", "rounded", "solid"]
  }

  /** The six quick presets; each one names a frame style that a frame button also offers. */
  function Presets(): (ps: seq<Preset>)
    ensures |ps| == 6
    ensures forall i :: 0 <= i < |ps| ==> ps[i].frameStyle in FrameStyleOptions()
    ensures forall i, j :: 0 <= i < j < |ps| ==> ps[i].name != ps[j].name
  {
    [ Preset("Classic", "#000000", "#FFFFFF", "none", "#000000"),
      Preset("Ocean", "#1e40af", "#dbeafe", "rounded", "#3b82f6"),
      Preset("Sunset", "#dc2626", "#fef3c7", "solid", "#f59e0b"),
      Preset("Forest", "#166534", "#dcfce7", "rounded", "#22c55e"),
      Preset("Royal", "#581c87", "#f3e8ff", "solid", "#8b5cf6"),
      Preset("Neon", "#ff0080", "#001122", "rounded", "#00ff88") ]
  }

  /** `{...prev, ...preset}`: the preset's fields win, the dials it does not name are kept. */
  function ApplyPreset(prev: QrStyle, preset: Preset): (r: QrStyle)
    ensures r.fgColor == preset.fgColor && r.bgColor == preset.bgColor
    ensures r.frameStyle == preset.frameStyle && r.frameColor == preset.frameColor
    ensures r.name == Some(preset.name)
    ensures r.eyeRadius == prev.eyeRadius && r.pattern == prev.pattern
  {
    prev.(fgColor := preset.fgColor, bgColor := preset.bgColor, frameStyle := preset.frameStyle,
          frameColor := preset.frameColor, name := Some(preset.name))
  }

  /** A later preset completely overrides an earlier one. */
  lemma ApplyPresetOverrides(s: QrStyle, p: Preset, q: Preset)
    ensures ApplyPreset(ApplyPreset(s, p), q) == ApplyPreset(s, q)
  {
  }

  /** The palette the randomiser draws from. */
  function Palette(): (colours: seq<Colour>)
    ensures |colours| == 8
    ensures "#ffffff" !in colours
    ensures forall i, j :: 0 <= i < j < |colours| ==> colours[i] != colours[j]
  {
    ["#ff6b6b", "#4ecdc4", "#45b7d1", "#f9ca24", "#f0932b", "#eb4d4b", "#6c5ce7", "#a29bfe"]
  }

  /**
   * `randomizeColors` with the three draws `Math.floor(Math.random() * 8)` supplied
   * by the caller as palette indices.  A background that collides with the
   * foreground is replaced by white.
   */
  function RandomizeColors(prev: QrStyle, fgIndex: nat, bgIndex: nat, frameIndex: nat): (r: QrStyle)
    requires fgIndex < 8 && bgIndex < 8 && frameIndex < 8
    ensures r.fgColor in Palette() && r.frameColor in Palette()
    ensures r.bgColor in Palette() || r.bgColor == "#ffffff"
    ensures r.bgColor != r.fgColor
    ensures r.frameStyle == prev.frameStyle && r.eyeRadius == prev.eyeRadius
    ensures r.pattern == prev.pattern && r.name == prev.name
  {
    var colours := Palette();
    var fg, bg, frame := colours[fgIndex], colours[bgIndex], colours[frameIndex];
    prev.(fgColor := fg, bgColor := if bg == fg then "#ffffff" else bg, frameColor := frame)
  }

  /** The chosen colours are exactly the drawn palette entries, and white appears only on a collision. */
  lemma RandomizeColorsDraws(prev: QrStyle, fgIndex: nat, bgIndex: nat, frameIndex: nat)
    requires fgIndex < 8 && bgIndex < 8 && frameIndex < 8
    ensures var r := RandomizeColors(prev, fgIndex, bgIndex, frameIndex);
      && r.fgColor == Palette()[fgIndex]
      && r.frameColor == Palette()[frameIndex]
      && (r.bgColor == "#ffffff" <==> fgIndex == bgIndex)
      && (fgIndex != bgIndex ==> r.bgColor == Palette()[bgIndex])
  {
    var colours := Palette();
    if fgIndex != bgIndex {
      if fgIndex < bgIndex {
        assert colours[fgIndex] != colours[bgIndex];
      } else {
        assert colours[bgIndex] != colours[fgIndex];
      }
    }
  }

  /** The foreground colour input: `{...prev, fgColor: value}`. */
  function SetFgColor(prev: QrStyle, value: Colour): (r: QrStyle)
    ensures r.fgColor == value
    ensures r.bgColor == prev.bgColor && r.eyeRadius == prev.eyeRadius && r.frameStyle == prev.frameStyle
    ensures r.frameColor == prev.frameColor && r.pattern == prev.pattern && r.name == prev.name
  {
    prev.(fgColor := value)
  }

  /** The background colour input: `{...prev, bgColor: value}`. */
  function SetBgColor(prev: QrStyle, value: Colour): (r: QrStyle)
    ensures r.bgColor == value
    ensures r.fgColor == prev.fgColor && r.eyeRadius == prev.eyeRadius && r.frameStyle == prev.frameStyle
    ensures r.frameColor == prev.frameColor && r.pattern == prev.pattern && r.name == prev.name
  {
    prev.(bgColor := value)
  }

  /** A frame-style button: `{...prev, frameStyle: style}`. */
  function SetFrameStyle(prev: QrStyle, style: string): (r: QrStyle)
    ensures r.frameStyle == style
    ensures r.fgColor == prev.fgColor && r.bgColor == prev.bgColor && r.eyeRadius == prev.eyeRadius
    ensures r.frameColor == prev.frameColor && r.pattern == prev.pattern && r.name == prev.name
  {
    prev.(frameStyle := style)
  }

  /** The frame colour input is rendered only while a frame is selected. */
  predicate FrameColorInputShown(s: QrStyle) {
    s.frameStyle != "none"
  }

  /** The frame colour input: `{...prev, frameColor: value}`. */
  function SetFrameColor(prev: QrStyle, value: Colour): (r: QrStyle)
    ensures r.frameColor == value
    ensures r.fgColor == prev.fgColor && r.bgColor == prev.bgColor && r.eyeRadius == prev.eyeRadius
    ensures r.frameStyle == prev.frameStyle && r.pattern == prev.pattern && r.name == prev.name
  {
    prev.(frameColor := value)
  }

  /** Setters of different fields commute, and a second write to the same field wins. */
  lemma SettersCommute(s: QrStyle, fg: Colour, bg: Colour, fs: string, fc: Colour)
    ensures SetFgColor(SetBgColor(s, bg), fg) == SetBgColor(SetFgColor(s, fg), bg)
    ensures SetFrameStyle(SetFrameColor(s, fc), fs) == SetFrameColor(SetFrameStyle(s, fs), fc)
    ensures SetFgColor(SetFgColor(s, bg), fg) == SetFgColor(s, fg)
  {
  }
}
