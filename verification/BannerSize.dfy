/** Banner size negotiation: every revision maps the requested height (50 when the
    host gave no size) to one of three partner size classes, and separately to the
    frame the ad view is laid out in. The revisions differ only in whether the two
    lower bands are written as closed ranges (`50...89`, `90...249`) or as
    half-open ones (`50..<89`, `90..<249`).
 */
module BannerSize {
  import opened Common

  /** The two ways the bands are written in the source. */
  datatype Bounds = Closed | HalfOpen

  /** The four revisions of the adapter. */
  datatype Revision = AdapterAdRev | AdAdapterRev | SharedAdapterRev | GlobalClosuresRev

  const DefaultHeight: real := 50.0

  /** `size?.height ?? 50` */
  function EffectiveHeight(size: Option<real>): real {
    if size.Some? then size.value else DefaultHeight
  }

  /** Membership in the band from `lo` to `hi` as the given range operator reads it. */
  predicate InBand(b: Bounds, lo: real, hi: real, h: real) {
    match b
    case Closed => lo <= h <= hi
    case HalfOpen => lo <= h < hi
  }

  /** The nominal height of a size class. */
  function ClassHeight(c: SizeClass): real {
    match c
    case H50 => 50.0
    case H90 => 90.0
    case H250 => 250.0
  }

  /** The frame the partner's size class stands for: origin (0,0), 728 wide for
      the leaderboard and 320 otherwise, as tall as the class. */
  function ClassFrame(c: SizeClass): (f: Frame)
    ensures f.x == 0.0 && f.y == 0.0
    ensures f.height == ClassHeight(c)
    ensures f.width == (if c == H90 then 728.0 else 320.0)
  {
    match c
    case H50 => Frame(0.0, 0.0, 320.0, 50.0)
    case H90 => Frame(0.0, 0.0, 728.0, 90.0)
    case H250 => Frame(0.0, 0.0, 320.0, 250.0)
  }

  /** getMetaAudienceNetworkBannerAdSize: every height gets a class, a missing or
      too small height gets the 50 class, and once the height reaches 50 the
      class chosen is never taller than the height asked for. */
  function SizeClassOf(b: Bounds, size: Option<real>): (c: SizeClass)
    ensures size.None? ==> c == H50
    ensures EffectiveHeight(size) < DefaultHeight ==> c == H50
    ensures EffectiveHeight(size) >= DefaultHeight ==> ClassHeight(c) <= EffectiveHeight(size)
  {
    var h := EffectiveHeight(size);
    if InBand(b, 50.0, 89.0, h) then H50
    else if InBand(b, 90.0, 249.0, h) then H90
    else if h >= 250.0 then H250
    else H50
  }

  /** getFrame: written as its own switch over the same bands, yet it always
      yields the frame of the class SizeClassOf picks with the same bounds. */
  function FrameOf(b: Bounds, size: Option<real>): (f: Frame)
    ensures f == ClassFrame(SizeClassOf(b, size))
  {
    var h := EffectiveHeight(size);
    if InBand(b, 50.0, 89.0, h) then Frame(0.0, 0.0, 320.0, 50.0)
    else if InBand(b, 90.0, 249.0, h) then Frame(0.0, 0.0, 728.0, 90.0)
    else if h >= 250.0 then Frame(0.0, 0.0, 320.0, 250.0)
    else Frame(0.0, 0.0, 320.0, 50.0)
  }

  /** The range style each revision's size function uses. */
  function SizeBounds(rev: Revision): Bounds {
    if rev == GlobalClosuresRev then HalfOpen else Closed
  }

  /** The range style each revision's frame function uses. */
  function FrameBounds(rev: Revision): Bounds {
    if rev == SharedAdapterRev || rev == GlobalClosuresRev then HalfOpen else Closed
  }

  /** The layout a revision gives a banner created for the requested size: the
      frame is that of the class its frame bands choose, so the layout is
      consistent whenever the revision writes both switches alike. */
  function LayoutFor(rev: Revision, size: Option<real>): (l: Layout)
    ensures l.frame == ClassFrame(SizeClassOf(FrameBounds(rev), size))
    ensures SizeBounds(rev) == FrameBounds(rev) ==> Consistent(l)
  {
    Layout(SizeClassOf(SizeBounds(rev), size), FrameOf(FrameBounds(rev), size))
  }

  /** A layout whose frame is the frame of its own size class. */
  predicate Consistent(l: Layout) {
    l.frame == ClassFrame(l.size)
  }

  /** The class is the tallest one that still fits the height. */
  ghost predicate IsLargestFit(c: SizeClass, h: real) {
    ClassHeight(c) <= h && forall c' :: ClassHeight(c') <= h ==> ClassHeight(c') <= ClassHeight(c)
  }

  /** The band table read off the class chosen: the 90 class exactly on the
      middle band, the 250 class exactly from 250 up, and the 50 class on the
      lower band and on everything no band covers (below 50 and the gaps). */
  lemma SizeClassBands(b: Bounds, size: Option<real>)
    ensures var h := EffectiveHeight(size);
            && (SizeClassOf(b, size) == H90 <==> InBand(b, 90.0, 249.0, h))
            && (SizeClassOf(b, size) == H250 <==> h >= 250.0)
            && (SizeClassOf(b, size) == H50 <==> !InBand(b, 90.0, 249.0, h) && h < 250.0)
  {
  }

  /** With closed bands the chosen class is the tallest that fits, exactly when
      the height is not strictly between 249 and 250. */
  lemma ClosedIsLargestFit(h: real)
    requires h >= DefaultHeight
    ensures IsLargestFit(SizeClassOf(Closed, Some(h)), h) <==> !(249.0 < h < 250.0)
  {
    if 249.0 < h < 250.0 {
      assert ClassHeight(H90) <= h;
    }
  }

  /** With half-open bands the chosen class is the tallest that fits, exactly
      when the height is not in [249, 250). */
  lemma HalfOpenIsLargestFit(h: real)
    requires h >= DefaultHeight
    ensures IsLargestFit(SizeClassOf(HalfOpen, Some(h)), h) <==> !(249.0 <= h < 250.0)
  {
    if 249.0 <= h < 250.0 {
      assert ClassHeight(H90) <= h;
    }
  }

  /** Heights in the fractional gaps above the bands fall to the default class
      under either way of writing the bands. */
  lemma FractionalGapsDefault(b: Bounds, h: real)
    requires 89.0 < h < 90.0 || 249.0 < h < 250.0
    ensures SizeClassOf(b, Some(h)) == H50
    ensures FrameOf(b, Some(h)) == ClassFrame(H50)
  {
  }

  /** Closed and half-open bands choose different classes at exactly one height,
      249; at 89 both choose the 50 class. */
  lemma BoundsDisagreeOnlyAt249(h: real)
    ensures SizeClassOf(Closed, Some(h)) != SizeClassOf(HalfOpen, Some(h)) <==> h == 249.0
    ensures SizeClassOf(Closed, Some(89.0)) == SizeClassOf(HalfOpen, Some(89.0)) == H50
    ensures h == 249.0 ==> SizeClassOf(Closed, Some(h)) == H90 && SizeClassOf(HalfOpen, Some(h)) == H50
  {
  }

  /** Within a revision the frame agrees with the size class for every height,
      except in the revision whose frame uses half-open bands while its size uses
      closed ones, and there only at height 249 (a 728x90 ad in a 320x50 frame). */
  lemma LayoutConsistentExceptSharedAt249(rev: Revision, size: Option<real>)
    ensures Consistent(LayoutFor(rev, size)) <==> !(rev == SharedAdapterRev && size == Some(249.0))
  {
    var l := LayoutFor(rev, size);
    if rev == SharedAdapterRev && size == Some(249.0) {
      assert l.size == H90;
      assert l.frame == ClassFrame(H50);
    } else if SizeBounds(rev) != FrameBounds(rev) {
      assert rev == SharedAdapterRev;
      assert size.None? || size.value != 249.0;
      if size.Some? {
        BoundsDisagreeOnlyAt249(size.value);
      }
    }
  }

  /** Two revisions give the same height different size classes exactly when one
      writes closed and the other half-open bands and the height is 249. */
  lemma RevisionsDisagree(r1: Revision, r2: Revision, h: real)
    ensures SizeClassOf(SizeBounds(r1), Some(h)) != SizeClassOf(SizeBounds(r2), Some(h))
        <==> SizeBounds(r1) != SizeBounds(r2) && h == 249.0
  {
    BoundsDisagreeOnlyAt249(h);
  }
}
