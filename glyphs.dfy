/**
 * Raster assets and number fonts (src/model.py, duplicated in src/sbardef.py):
 * the magenta colour key `cyanToAlpha`, the `NumberFont` glyph set with its
 * `addNumber`/`addMinus`/`addPercent` updates, the digit strip `getPixmap`
 * and `load_fonts`.
 *
 * Images are abstract: a width, a height and RGBA pixels. A composed strip is
 * its size plus the list of glyph pastes, in paste order.
 */
module Glyphs {
  import opened Wrappers
  import opened Document

  type Pixel = (int, int, int, int)

  /** What a magenta pixel becomes: magenta with alpha 0. */
  const KEYED_OUT: Pixel := (255, 0, 255, 0)

  /** The key colour is RGB (255, 0, 255), whatever the alpha. */
  predicate IsKeyColour(p: Pixel)
  {
    p.0 == 255 && p.1 == 0 && p.2 == 255
  }

  datatype Image = Image(width: nat, height: nat, pixels: seq<Pixel>)

  /** A graphic of the resource archive with its authoring offsets. */
  datatype Lump = Lump(image: Image, xOffset: int, yOffset: int)

  function KeyPixel(p: Pixel): Pixel
  {
    if IsKeyColour(p) then KEYED_OUT else p
  }

  /** The image `cyanToAlpha` returns. */
  function KeyImage(img: Image): Image
  {
    img.(pixels := seq(|img.pixels|, i requires 0 <= i < |img.pixels| => KeyPixel(img.pixels[i])))
  }

  /** Keying an already keyed image changes nothing. */
  lemma KeyImageIdempotent(img: Image)
    ensures KeyImage(KeyImage(img)) == KeyImage(img)
  {
    var once := KeyImage(img);
    assert KeyImage(once).pixels == once.pixels;
  }

  /**
   * cyanToAlpha: every pixel whose RGB is (255, 0, 255) becomes fully
   * transparent magenta; every other pixel is copied; the size is kept.
   */
  method CyanToAlpha(image: Image) returns (r: Image)
    ensures r.width == image.width && r.height == image.height
    ensures |r.pixels| == |image.pixels|
    ensures forall i :: 0 <= i < |image.pixels| && IsKeyColour(image.pixels[i]) ==> r.pixels[i] == KEYED_OUT
    ensures forall i :: 0 <= i < |image.pixels| && !IsKeyColour(image.pixels[i]) ==> r.pixels[i] == image.pixels[i]
    ensures r == KeyImage(image)
  {
    var newData: seq<Pixel> := [];
    var i := 0;
    while i < |image.pixels|
      invariant 0 <= i <= |image.pixels| && |newData| == i
      invariant forall k :: 0 <= k < i ==> newData[k] == KeyPixel(image.pixels[k])
    {
      var item := image.pixels[i];
      if item.0 == 255 && item.1 == 0 && item.2 == 255 {
        newData := newData + [(255, 0, 255, 0)];
      } else {
        newData := newData + [item];
      }
      i := i + 1;
    }
    r := image.(pixels := newData);
  }

  function Max(a: int, b: int): int
  {
    if a < b then b else a
  }

  /** `max` over the glyph widths, starting from 0, as addNumber accumulates it. */
  function MaxWidth(glyphs: seq<Image>): nat
  {
    if glyphs == [] then 0 else Max(MaxWidth(glyphs[..|glyphs| - 1]), glyphs[|glyphs| - 1].width)
  }

  /** `max` over the glyph heights, starting from 0. */
  function MaxHeight(glyphs: seq<Image>): nat
  {
    if glyphs == [] then 0 else Max(MaxHeight(glyphs[..|glyphs| - 1]), glyphs[|glyphs| - 1].height)
  }

  /** maxwidth and maxheight are the largest glyph width and height (0 for no glyph). */
  lemma {:induction false} MaxSizeIsMaximum(glyphs: seq<Image>)
    ensures forall i :: 0 <= i < |glyphs| ==> glyphs[i].width <= MaxWidth(glyphs) && glyphs[i].height <= MaxHeight(glyphs)
    ensures glyphs != [] ==> exists i :: 0 <= i < |glyphs| && glyphs[i].width == MaxWidth(glyphs)
    ensures glyphs != [] ==> exists j :: 0 <= j < |glyphs| && glyphs[j].height == MaxHeight(glyphs)
    ensures glyphs == [] ==> MaxWidth(glyphs) == 0 && MaxHeight(glyphs) == 0
  {
    if glyphs != [] {
      var init := glyphs[..|glyphs| - 1];
      MaxSizeIsMaximum(init);
      assert forall i :: 0 <= i < |init| ==> init[i] == glyphs[i];
      if init != [] {
        var i :| 0 <= i < |init| && init[i].width == MaxWidth(init);
        var j :| 0 <= j < |init| && init[j].height == MaxHeight(init);
        var last := |glyphs| - 1;
        var wi := if glyphs[last].width >= MaxWidth(init) then last else i;
        var hj := if glyphs[last].height >= MaxHeight(init) then last else j;
        assert glyphs[wi].width == MaxWidth(glyphs);
        assert glyphs[hj].height == MaxHeight(glyphs);
      } else {
        assert glyphs[0].width == MaxWidth(glyphs) && glyphs[0].height == MaxHeight(glyphs);
      }
    }
  }

  /** A snapshot of a NumberFont's fields. */
  datatype FontData = FontData(
    name: string,
    numbers: seq<Image>,
    maxWidth: nat,
    maxHeight: nat,
    minus: Option<Image>,
    percent: Option<Image>)
  {
    /** maxwidth and maxheight are those of the digit glyphs, as addNumber keeps them. */
    predicate Valid()
    {
      maxWidth == MaxWidth(numbers) && maxHeight == MaxHeight(numbers)
    }

    /** getPixmap's `totalwidth`. */
    function StripWidth(maxLength: nat, pct: bool): nat
    {
      maxWidth * maxLength + (if pct && percent.Some? then percent.value.width else 0)
    }
  }

  /** One `image.paste(glyph, (x, y))`. */
  datatype Paste = Paste(glyph: Image, x: int, y: int)

  /** A composed image: its size and its pastes in order. */
  datatype Strip = Strip(width: nat, height: nat, pastes: seq<Paste>)

  lemma MulMonotone(a: nat, b: nat, c: nat, d: nat)
    requires a <= c && b <= d
    ensures a * b <= c * d
  {
    assert a * b <= c * b;
    assert c * b <= c * d;
  }

  class NumberFont {
    const name: string
    var numbers: seq<Image>
    var maxWidth: nat
    var maxHeight: nat
    var minus: Option<Image>
    var percent: Option<Image>

    function Data(): FontData
      reads this
    {
      FontData(name, numbers, maxWidth, maxHeight, minus, percent)
    }

    constructor(name: string)
      ensures Data() == FontData(name, [], 0, 0, None, None)
      ensures Data().Valid()
    {
      this.name := name;
      numbers := [];
      maxWidth := 0;
      maxHeight := 0;
      minus := None;
      percent := None;
    }

    /** addNumber: append the keyed glyph and grow maxwidth/maxheight to cover it. */
    method AddNumber(image: Image)
      modifies this
      ensures numbers == old(numbers) + [KeyImage(image)]
      ensures maxWidth == Max(old(maxWidth), image.width) && maxHeight == Max(old(maxHeight), image.height)
      ensures minus == old(minus) && percent == old(percent)
      ensures old(Data().Valid()) ==> Data().Valid()
    {
      var keyed := CyanToAlpha(image);
      numbers := numbers + [keyed];
      maxWidth := Max(maxWidth, image.width);
      maxHeight := Max(maxHeight, image.height);
      assert numbers[..|numbers| - 1] == old(numbers);
    }

    /** addMinus: the minus glyph is replaced by the keyed image; nothing else changes. */
    method AddMinus(image: Image)
      modifies this
      ensures minus == Some(KeyImage(image))
      ensures numbers == old(numbers) && maxWidth == old(maxWidth) && maxHeight == old(maxHeight)
      ensures percent == old(percent)
    {
      var keyed := CyanToAlpha(image);
      minus := Some(keyed);
    }

    /** addPercent: the percent glyph is replaced by the keyed image; nothing else changes. */
    method AddPercent(image: Image)
      modifies this
      ensures percent == Some(KeyImage(image))
      ensures numbers == old(numbers) && maxWidth == old(maxWidth) && maxHeight == old(maxHeight)
      ensures minus == old(minus)
    {
      var keyed := CyanToAlpha(image);
      percent := Some(keyed);
    }

    /**
     * getPixmap: a strip `maxwidth * maxlength` wide (plus the percent glyph
     * when asked for and present) and `maxheight` high, holding `maxlength`
     * copies of the digit-0 glyph side by side and the percent glyph flush
     * right. When maxwidth and maxheight are those of the digits, every paste
     * lies within the strip horizontally.
     */
    method GetPixmap(maxLength: nat, pct: bool) returns (strip: Strip)
      requires |numbers| > 0
      ensures strip.width == Data().StripWidth(maxLength, pct) && strip.height == maxHeight
      ensures |strip.pastes| == maxLength + (if pct && percent.Some? then 1 else 0)
      ensures forall i :: 0 <= i < maxLength ==> strip.pastes[i] == Paste(numbers[0], i * numbers[0].width, 0)
      ensures pct && percent.Some? ==>
        strip.pastes[maxLength] == Paste(percent.value, strip.width - percent.value.width, 0)
      ensures Data().Valid() ==>
        forall k :: 0 <= k < |strip.pastes| ==>
          0 <= strip.pastes[k].x && strip.pastes[k].x + strip.pastes[k].glyph.width <= strip.width
    {
      var totalWidth := maxWidth * maxLength;
      if pct && percent.Some? {
        totalWidth := totalWidth + percent.value.width;
      }
      var pastes: seq<Paste> := [];
      var number := numbers[0];
      var i := 0;
      while i < maxLength
        invariant 0 <= i <= maxLength && |pastes| == i
        invariant forall k :: 0 <= k < i ==> pastes[k] == Paste(number, k * number.width, 0)
      {
        pastes := pastes + [Paste(number, i * number.width, 0)];
        i := i + 1;
      }
      if pct && percent.Some? {
        pastes := pastes + [Paste(percent.value, totalWidth - percent.value.width, 0)];
      }
      strip := Strip(totalWidth, maxHeight, pastes);
      if Data().Valid() {
        MaxSizeIsMaximum(numbers);
        forall k | 0 <= k < maxLength
          ensures 0 <= pastes[k].x && pastes[k].x + pastes[k].glyph.width <= maxWidth * maxLength
        {
          DigitPasteInside(k, number.width, maxWidth, maxLength);
        }
      }
    }
  }

  /** Digit k of a strip of maxLength digits, each at most maxWidth wide, ends within the strip. */
  lemma DigitPasteInside(k: nat, glyphWidth: nat, maxWidth: nat, maxLength: nat)
    requires k < maxLength && glyphWidth <= maxWidth
    ensures 0 <= k * glyphWidth && k * glyphWidth + glyphWidth <= maxWidth * maxLength
  {
    MulMonotone(k + 1, glyphWidth, maxLength, maxWidth);
    assert (k + 1) * glyphWidth == k * glyphWidth + glyphWidth;
    assert maxLength * maxWidth == maxWidth * maxLength;
  }

  /** The lump name of digit `d` of a font: stem + "NUM" + str(d). */
  function DigitName(stem: string, d: nat): string
    requires d < 10
  {
    stem + "NUM" + [('0' as int + d) as char]
  }

  /** The keyed glyph of lump `name`, when the archive has it. */
  function OptionalGlyph(name: string, lumps: map<string, Lump>): Option<Image>
  {
    if name in lumps then Some(KeyImage(lumps[name].image)) else None
  }

  /** The digits among 0..n-1 whose lump exists, ascending. */
  function PresentDigits(stem: string, lumps: map<string, Lump>, n: nat): seq<nat>
    requires n <= 10
  {
    if n == 0 then []
    else PresentDigits(stem, lumps, n - 1) + (if DigitName(stem, n - 1) in lumps then [n - 1] else [])
  }

  /** The glyphs load_fonts adds for digits 0..n-1, in call order. */
  function DigitGlyphs(stem: string, lumps: map<string, Lump>, n: nat): seq<Image>
    requires n <= 10
  {
    if n == 0 then []
    else
      var name := DigitName(stem, n - 1);
      DigitGlyphs(stem, lumps, n - 1) + (if name in lumps then [KeyImage(lumps[name].image)] else [])
  }

  /** The font load_fonts builds from one definition. */
  function LoadedFont(def: FontDef, lumps: map<string, Lump>): FontData
  {
    var numbers := DigitGlyphs(def.stem, lumps, 10);
    FontData(def.name, numbers, MaxWidth(numbers), MaxHeight(numbers),
             OptionalGlyph(def.stem + "MINUS", lumps), OptionalGlyph(def.stem + "PRCNT", lumps))
  }

  /**
   * load_fonts adds exactly the digits whose lump exists, in ascending
   * order: glyph k is the keyed lump of the k-th present digit.
   */
  lemma {:induction false} DigitGlyphsAreThePresentDigits(stem: string, lumps: map<string, Lump>, n: nat)
    requires n <= 10
    ensures var ds := PresentDigits(stem, lumps, n);
      var gs := DigitGlyphs(stem, lumps, n);
      && |gs| == |ds|
      && (forall k :: 0 <= k < |ds| ==>
            ds[k] < n && DigitName(stem, ds[k]) in lumps && gs[k] == KeyImage(lumps[DigitName(stem, ds[k])].image))
      && (forall k, l :: 0 <= k < l < |ds| ==> ds[k] < ds[l])
      && (forall d :: 0 <= d < n && DigitName(stem, d) in lumps ==> d in ds)
  {
    if n > 0 {
      DigitGlyphsAreThePresentDigits(stem, lumps, n - 1);
    }
  }

  /** With all ten digit lumps present, glyph d is the keyed lump of digit d. */
  lemma {:induction false} AllDigitsPresent(stem: string, lumps: map<string, Lump>, n: nat)
    requires n <= 10
    requires forall d :: 0 <= d < n ==> DigitName(stem, d) in lumps
    ensures |DigitGlyphs(stem, lumps, n)| == n
    ensures forall d :: 0 <= d < n ==> DigitGlyphs(stem, lumps, n)[d] == KeyImage(lumps[DigitName(stem, d)].image)
  {
    if n > 0 {
      AllDigitsPresent(stem, lumps, n - 1);
    }
  }

  /** The body of load_fonts' loop for one definition. */
  method LoadFont(def: FontDef, lumps: map<string, Lump>) returns (font: NumberFont)
    ensures fresh(font) && font.Data() == LoadedFont(def, lumps) && font.Data().Valid()
  {
    font := new NumberFont(def.name);
    var stem := def.stem;
    var num := 0;
    while num < 10
      modifies font
      invariant 0 <= num <= 10
      invariant font.Data().Valid()
      invariant font.Data() == FontData(def.name, DigitGlyphs(stem, lumps, num), font.maxWidth, font.maxHeight, None, None)
    {
      var name := stem + "NUM" + [('0' as int + num) as char];
      assert name == DigitName(stem, num);
      if name in lumps {
        font.AddNumber(lumps[name].image);
      }
      num := num + 1;
    }
    var name := stem + "MINUS";
    if name in lumps {
      font.AddMinus(lumps[name].image);
    }
    name := stem + "PRCNT";
    if name in lumps {
      font.AddPercent(lumps[name].image);
    }
  }

  /**
   * load_fonts: one font per definition, in order, each holding the keyed
   * digit glyphs that exist and the minus and percent glyphs when they exist.
   */
  method LoadFonts(defs: seq<FontDef>, lumps: map<string, Lump>) returns (fonts: seq<NumberFont>)
    ensures |fonts| == |defs|
    ensures forall i :: 0 <= i < |fonts| ==> fresh(fonts[i]) && fonts[i].Data() == LoadedFont(defs[i], lumps)
    ensures forall i :: 0 <= i < |fonts| ==> fonts[i].Data().Valid()
  {
    fonts := [];
    var k := 0;
    while k < |defs|
      invariant 0 <= k <= |defs| && |fonts| == k
      invariant forall i :: 0 <= i < k ==> fresh(fonts[i]) && fonts[i].Data() == LoadedFont(defs[i], lumps)
      invariant forall i :: 0 <= i < k ==> fonts[i].Data().Valid()
    {
      var font := LoadFont(defs[k], lumps);
      fonts := fonts + [font];
      k := k + 1;
    }
  }

  /** The contents of a list of fonts. */
  function FontsData(fonts: seq<NumberFont>): (r: seq<FontData>)
    reads fonts
    ensures |r| == |fonts| && forall i :: 0 <= i < |fonts| ==> r[i] == fonts[i].Data()
  {
    seq(|fonts|, i reads fonts requires 0 <= i < |fonts| => fonts[i].Data())
  }
}
