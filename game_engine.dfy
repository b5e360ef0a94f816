/**
 * The shared engine service: an image cache filled by completed loads, and
 * the two draw primitives, a sprite blit and a text blit. Loading an image is
 * an oracle: each load either succeeds or fails, as the caller says.
 */
module GameEngine {

  import opened Wrappers
  import opened Models
  import opened Canvas2D

  /** A decoded image; every completed load yields a new one. */
  class Image {
    const src: string

    constructor (src: string)
      ensures this.src == src
    {
      this.src := src;
    }
  }

  class GameEngineService {
    var cache: map<string, Image>

    /** Every cached image was loaded from the url it is stored under. */
    ghost predicate Valid()
      reads this
    {
      forall url :: url in cache ==> cache[url].src == url
    }

    constructor ()
      ensures Valid() && cache == map[]
    {
      cache := map[];
    }

    /** Tearing the service down empties the cache. */
    method OnDestroy()
      modifies this
      ensures Valid() && cache == map[]
    {
      cache := map[];
    }

    /** The synchronous half of `getImage`: a cache hit, if there is one. */
    function Cached(url: string): (hit: Option<Image>)
      reads this
      ensures hit.Some? <==> url in cache
      ensures hit.Some? ==> hit.value == cache[url]
    {
      if url in cache then Some(cache[url]) else None
    }

    /**
     * The asynchronous half of `getImage` on a miss: the load completes with
     * a new image, stored under `url`, or fails and stores nothing.
     */
    method CompleteLoad(url: string, loads: bool) returns (img: Option<Image>)
      requires Valid()
      modifies this
      ensures Valid()
      ensures img.Some? <==> loads
      ensures loads ==> fresh(img.value) && img.value.src == url && cache == old(cache)[url := img.value]
      ensures !loads ==> cache == old(cache)
    {
      if loads {
        var image := new Image(url);
        cache := cache[url := image];
        img := Some(image);
      } else {
        img := None;
      }
    }

    /**
     * `getImage(url)`: a hit resolves with the stored image and loads
     * nothing; a miss loads, caching the image only if the load succeeds.
     */
    method GetImage(url: string, loads: bool) returns (img: Option<Image>)
      requires Valid()
      modifies this
      ensures Valid()
      ensures img.Some? ==> img.value.src == url
      ensures url in old(cache) ==> img == Some(old(cache)[url]) && cache == old(cache)
      ensures url !in old(cache) ==> (img.Some? <==> loads)
      ensures url !in old(cache) && loads ==>
        fresh(img.value) && img.value.src == url && cache == old(cache)[url := img.value]
      ensures url !in old(cache) && !loads ==> cache == old(cache)
    {
      img := Cached(url);
      if img.None? {
        img := CompleteLoad(url, loads);
      }
    }

    /**
     * Two `getImage(url)` calls made before either load completes: both miss,
     * so each starts a load of its own, and the later completion wins.
     */
    method ConcurrentGetImage(url: string, firstLoads: bool, secondLoads: bool)
      returns (first: Option<Image>, second: Option<Image>)
      requires Valid() && url !in cache
      modifies this
      ensures Valid()
      ensures first.Some? <==> firstLoads
      ensures second.Some? <==> secondLoads
      ensures firstLoads && secondLoads ==>
        first.value != second.value && cache == old(cache)[url := second.value]
      ensures firstLoads && !secondLoads ==> cache == old(cache)[url := first.value]
      ensures !firstLoads && secondLoads ==> cache == old(cache)[url := second.value]
      ensures !firstLoads && !secondLoads ==> cache == old(cache)
      ensures first.Some? ==> first.value.src == url
      ensures second.Some? ==> second.value.src == url
    {
      var hit1 := Cached(url);
      var hit2 := Cached(url);
      assert hit1.None? && hit2.None?;
      first := CompleteLoad(url, firstLoads);
      second := CompleteLoad(url, secondLoads);
    }

    /**
     * `drawSprite`: blits the cell (`col`, `row`) of a sheet of
     * `imageWidth` x `imageHeight` cells, shifted by `pad`, to a
     * `displayWidth` x `displayHeight` rectangle at `pos`; nothing without a
     * context.
     */
    method DrawSprite(canvas: Canvas, sheet: Image, pos: Point, imageWidth: int, imageHeight: int,
                      col: int, row: int, displayWidth: int, displayHeight: int, pad: int := 0)
      modifies canvas
      ensures canvas.trace == old(canvas.trace) +
        if canvas.hasContext then
          [DrawImageRect(sheet.src, SpriteSource(col, row, imageWidth, imageHeight, pad),
                         Rect(pos.x, pos.y, displayWidth, displayHeight))]
        else []
    {
      if canvas.hasContext {
        canvas.Issue([DrawImageRect(sheet.src,
                                    Rect(col * imageWidth + pad, row * imageHeight + pad, imageWidth, imageHeight),
                                    Rect(pos.x, pos.y, displayWidth, displayHeight))]);
      }
    }

    /**
     * `drawText`: sets the fill colour and the alignment, then draws `text`
     * at `pos`; nothing without a context.
     */
    method DrawText(text: string, canvas: Canvas, color: string, pos: Point, align: string := "center")
      modifies canvas
      ensures canvas.hasContext ==>
        canvas.trace == old(canvas.trace) + [SetFillStyle(color), SetTextAlign(align), FillText(text, AtX(pos.x), pos.y, false)]
      ensures !canvas.hasContext ==> canvas.trace == old(canvas.trace)
    {
      if canvas.hasContext {
        canvas.Issue([SetFillStyle(color)]);
        canvas.Issue([SetTextAlign(align)]);
        canvas.Issue([FillText(text, AtX(pos.x), pos.y, false)]);
      }
    }
  }

  /**
   * `after` is `before` plus the images loaded for the misses among `urls`:
   * nothing cached is replaced, nothing else is added, and every url whose
   * load succeeds ends up cached.
   */
  ghost predicate Grew(before: map<string, Image>, after: map<string, Image>, urls: set<string>, load: string -> bool) {
    && (forall u :: u in before ==> u in after && after[u] == before[u])
    && (forall u :: u in after ==> u in before || (u in urls && load(u)))
    && (forall u :: u in urls && load(u) ==> u in after)
  }

  /** Loads made one after the other add up. */
  lemma GrewTwice(c0: map<string, Image>, c1: map<string, Image>, c2: map<string, Image>,
                  s1: set<string>, s2: set<string>, load: string -> bool)
    requires Grew(c0, c1, s1, load) && Grew(c1, c2, s2, load)
    ensures Grew(c0, c2, s1 + s2, load)
  {
  }

  /** A url outside `urls` is cached afterwards exactly when it was before. */
  lemma GrewElsewhereUnchanged(before: map<string, Image>, after: map<string, Image>, urls: set<string>,
                               load: string -> bool, url: string)
    requires Grew(before, after, urls, load) && url !in urls
    ensures url in after <==> url in before
  {
  }

  /** The source rectangle of sheet cell (`col`, `row`). */
  function SpriteSource(col: int, row: int, width: int, height: int, pad: int): Rect {
    Rect(col * width + pad, row * height + pad, width, height)
  }

  predicate InRect(px: int, py: int, r: Rect) {
    r.x <= px < r.x + r.w && r.y <= py < r.y + r.h
  }

  lemma MulAtLeast(a: int, w: int)
    requires a >= 1 && w > 0
    ensures a * w >= w
  {
    var k := a - 1;
    assert a * w == k * w + w;
  }

  lemma DivIffBetween(p: int, c: int, w: int)
    requires w > 0
    ensures c * w <= p < c * w + w <==> p / w == c
  {
    var q := p / w;
    assert q * w <= p < q * w + w;
    if c * w <= p < c * w + w {
      if q > c {
        assert (q - c) * w == q * w - c * w;
        MulAtLeast(q - c, w);
      } else if q < c {
        assert (c - q) * w == c * w - q * w;
        MulAtLeast(c - q, w);
      }
    }
  }

  /**
   * Without padding the cells tile the sheet: a pixel lies in the source
   * rectangle of exactly one cell, the one its coordinates divide into.
   */
  lemma SpriteCellsTileSheet(col: int, row: int, width: int, height: int, px: int, py: int)
    requires width > 0 && height > 0
    ensures InRect(px, py, SpriteSource(col, row, width, height, 0)) <==> (px / width == col && py / height == row)
  {
    DivIffBetween(px, col, width);
    DivIffBetween(py, row, height);
  }
}
