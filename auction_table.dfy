/** The GUI table adapter (auctionTableModel): the multi-column row
    comparator, the thumbnail target size, the bid/snipe cell texts, the
    status-icon overlays and the per-column cell values, over an abstract
    auction entry. Swing, the icon compositing and the date formatting are
    the libraries' and appear here only as tags. */
module AuctionTable {
  import opened Domain
  import opened JavaText

  /** The text shown where there is no bid or no amount. */
  const NEVER_BID := "--"

  /** The largest thumbnail side, in pixels. */
  const THUMB_SIDE := 64

  /** What the table reads of an AuctionEntry. Optional strings are the
      getters that may return null; hasErrorPage is getErrorPage() != null,
      hasMultiSnipe says whether the MultiSnipeManager holds a multisnipe
      for the entry, and timeLeftShowsEnded says whether getTimeLeft()
      equals AuctionEntry.endedAuction. */
  datatype Entry = Entry(
    identifier: string,
    title: string,
    sellerName: string,
    itemLocation: Option<string>,
    currentPrice: Currency,
    buyNow: Currency,
    shippingWithInsurance: Currency,
    bid: Currency,
    snipeAmount: Currency,
    cancelledSnipe: Currency,
    isFixed: bool,
    quantity: int,
    numBidders: int,
    isSniped: bool,
    isBidOn: bool,
    snipeCancelled: bool,
    isComplete: bool,
    isSnipeValid: bool,
    hasMultiSnipe: bool,
    hasErrorPage: bool,
    highBidder: Option<string>,
    isHighBidder: bool,
    isSeller: bool,
    isReserve: bool,
    isReserveMet: bool,
    thumbnail: Option<string>,
    comment: Option<string>,
    isInvalid: bool,
    isDeleted: bool,
    hasPaypal: bool,
    endDate: Option<Date>,
    timeLeft: string,
    timeLeftShowsEnded: bool)

  /** The table's columns (the TableColumnController constants). WholeRow is
      index -1; Custom is a user column above MAX_FIXED_COLUMN and below the
      column count; Unassigned is any other index. */
  datatype Column =
    | WholeRow | Id | CurBid | SnipeOrMax | TimeLeft | Title | Status | Thumbnail
    | SellerName | FixedPrice | ShippingInsurance | Bidder | Max | Snipe | Comment
    | EndDate | SellerFeedback | ItemLocation | BidCount | JustPrice
    | SellerPositiveFeedback | CurTotal | SnipeTotal
    | Custom(index: int) | Unassigned(index: int)

  /** Currency.add: None where it throws CurrencyTypeException. */
  type Adder = (Currency, Currency) -> Option<Currency>

  // ---------------------------------------------------------------------
  // Multi-column comparison

  /** One sort key: a column and its direction (getSort, +1 or -1). */
  datatype ColumnState = ColumnState(column: Column, sort: int)

  /** compareByClass of the two rows' sort values in the key's column,
      signed by the key's direction. `byColumn` stands for compareByClass
      applied to the two rows' getSortByValueAt values. */
  function KeyDifference(cs: ColumnState, byColumn: Column -> int): int
  {
    byColumn(cs.column) * cs.sort
  }

  /** Lexicographic comparison: the first key whose difference is non-zero decides. */
  function LexCompare(keys: seq<ColumnState>, byColumn: Column -> int): int
  {
    if keys == [] then 0
    else if KeyDifference(keys[0], byColumn) != 0 then KeyDifference(keys[0], byColumn)
    else LexCompare(keys[1..], byColumn)
  }

  /** compare(row1, row2, columnStateList): walks the keys, keeps the signed
      difference of each and stops at the first non-zero one. */
  method Compare(keys: seq<ColumnState>, byColumn: Column -> int) returns (result: int)
    ensures result == LexCompare(keys, byColumn)
    ensures keys == [] ==> result == 0
  {
    result := 0;
    var i := 0;
    while i < |keys|
      invariant 0 <= i <= |keys|
      invariant result == 0
      invariant LexCompare(keys[i..], byColumn) == LexCompare(keys, byColumn)
    {
      var cs := keys[i];
      result := KeyDifference(cs, byColumn);
      if result != 0 {
        break;
      }
      assert keys[i..][1..] == keys[i + 1..];
      i := i + 1;
    }
  }

  /** The comparison is zero exactly when every key compares equal, and a
      non-zero result is the difference of the first key that differs. */
  lemma {:induction false} LexCompareIsFirstDifference(keys: seq<ColumnState>, byColumn: Column -> int)
    ensures LexCompare(keys, byColumn) == 0 <==>
              forall k :: 0 <= k < |keys| ==> KeyDifference(keys[k], byColumn) == 0
    ensures LexCompare(keys, byColumn) != 0 ==>
              exists k :: 0 <= k < |keys| && LexCompare(keys, byColumn) == KeyDifference(keys[k], byColumn) &&
                forall j :: 0 <= j < k ==> KeyDifference(keys[j], byColumn) == 0
  {
    if keys != [] {
      LexCompareIsFirstDifference(keys[1..], byColumn);
      var r := LexCompare(keys, byColumn);
      if KeyDifference(keys[0], byColumn) == 0 {
        if r != 0 {
          var k :| 0 <= k < |keys[1..]| && r == KeyDifference(keys[1..][k], byColumn) &&
                   forall j :: 0 <= j < k ==> KeyDifference(keys[1..][j], byColumn) == 0;
          assert forall j :: 0 <= j < k + 1 ==> KeyDifference(keys[j], byColumn) == 0 by {
            forall j | 0 <= j < k + 1 ensures KeyDifference(keys[j], byColumn) == 0 {
              if j > 0 { assert keys[j] == keys[1..][j - 1]; }
            }
          }
        } else {
          forall k | 0 <= k < |keys| ensures KeyDifference(keys[k], byColumn) == 0 {
            if k > 0 { assert keys[k] == keys[1..][k - 1]; }
          }
        }
      }
    }
  }

  /** Later keys are consulted only when all earlier keys compare equal. */
  lemma {:induction false} LexCompareIgnoresLaterColumns(keys: seq<ColumnState>, more: seq<ColumnState>, byColumn: Column -> int)
    ensures LexCompare(keys + more, byColumn) ==
              if LexCompare(keys, byColumn) != 0 then LexCompare(keys, byColumn) else LexCompare(more, byColumn)
  {
    if keys == [] {
      assert keys + more == more;
    } else {
      assert (keys + more)[0] == keys[0];
      assert (keys + more)[1..] == keys[1..] + more;
      LexCompareIgnoresLaterColumns(keys[1..], more, byColumn);
    }
  }

  /** Swapping the two rows negates the result whenever every column's
      comparison is antisymmetric. */
  lemma {:induction false} LexCompareAntisymmetric(keys: seq<ColumnState>, forward: Column -> int, backward: Column -> int)
    requires forall c :: backward(c) == -forward(c)
    ensures LexCompare(keys, backward) == -LexCompare(keys, forward)
  {
    if keys != [] {
      LexCompareAntisymmetric(keys[1..], forward, backward);
      assert KeyDifference(keys[0], backward) == -KeyDifference(keys[0], forward);
    }
  }

  // ---------------------------------------------------------------------
  // Sort classes

  /** The Java class a column sorts by. */
  datatype SortClass = IntegerClass | StringClass | CurrencyClass | DateClass | IconClass | NullClass

  predicate IsCurrencyColumn(c: Column)
  {
    c in {CurBid, SnipeOrMax, ShippingInsurance, Max, Snipe, FixedPrice, JustPrice, CurTotal}
  }

  predicate IsDateColumn(c: Column) { c == TimeLeft || c == EndDate }

  predicate SortsAsInteger(c: Column)
  {
    c in {Status, Thumbnail, SellerFeedback, BidCount, SellerPositiveFeedback}
  }

  /** Placeholder icons. Composite is the status icon as its overlay tags in
      the order they are combined; Scaled is a thumbnail loaded from a path
      and scaled to the target width and height (-1 keeps the aspect ratio). */
  datatype Icon = Blank | Composite(overlays: seq<Overlay>) | Scaled(path: string, width: int, height: int)

  /** What a cell shows. FormattedDate is a date rendered by SimpleDateFormat
      (red marks the HTML colouring of an unfinished ended auction),
      DecodedTitle is XMLElement.decodeString of the raw title, and
      CustomCell is what a custom column computes for the entry. */
  datatype CellValue =
    | NullCell
    | Text(s: string)
    | Money(amount: Currency)
    | Number(n: int)
    | Picture(icon: Icon)
    | Row(entry: Option<Entry>)
    | When(date: Date)
    | FormattedDate(date: Date, red: bool)
    | DecodedTitle(raw: string)
    | CustomCell(index: int, forEntry: Entry)

  /** getDummyValueAtColumn: the value a missing row shows in a column. */
  function DummyValue(c: Column): (v: CellValue)
    ensures v == NullCell <==> c == WholeRow
    ensures v.Money? <==> IsCurrencyColumn(c)
    ensures v.Money? ==> v.amount == NO_VALUE
    ensures v.When? <==> IsDateColumn(c)
    ensures v.When? ==> v.date == FAR_FUTURE
    ensures v.Picture? <==> c == Status || c == Thumbnail
    ensures v.Picture? ==> v.icon == Blank
    ensures !(v.NullCell? || v.Money? || v.When? || v.Picture?) ==> v == Text("")
  {
    if c == WholeRow then NullCell
    else if IsCurrencyColumn(c) then Money(NO_VALUE)
    else if IsDateColumn(c) then When(FAR_FUTURE)
    else if c == Status || c == Thumbnail then Picture(Blank)
    else Text("")
  }

  function ClassOf(v: CellValue): SortClass
  {
    match v
    case NullCell => NullClass
    case Money(_) => CurrencyClass
    case When(_) => DateClass
    case Picture(_) => IconClass
    case Number(_) => IntegerClass
    case _ => StringClass
  }

  /** getSortByColumnClass: Integer for the status, thumbnail, feedback and
      bid-count columns, String for the whole row and custom columns, and
      otherwise the class of the column's dummy value. */
  function SortByColumnClass(c: Column): (r: SortClass)
    ensures r == IntegerClass <==> SortsAsInteger(c)
    ensures r == CurrencyClass <==> IsCurrencyColumn(c)
    ensures r == DateClass <==> IsDateColumn(c)
    ensures r in {IntegerClass, StringClass, CurrencyClass, DateClass}
  {
    if SortsAsInteger(c) then IntegerClass
    else if c == WholeRow || c.Custom? then StringClass
    else ClassOf(DummyValue(c))
  }

  // ---------------------------------------------------------------------
  // Thumbnail size

  /** The scaled width and height of a thumbnail; -1 keeps the aspect ratio. */
  datatype Target = Target(width: int, height: int)

  /** An image's height and width as ImageIcon reports them (-1 when it did not load). */
  datatype ImageSize = ImageSize(height: int, width: int)

  /** The size rule of scaleImage. An image within 64x64 is left alone; a
      larger one gets its longer side (the height, for a square) set to 64
      and the other side to -1; a side reported as -1 is passed through. */
  function TargetSize(size: ImageSize): (t: Target)
    ensures size.height <= THUMB_SIDE && size.width <= THUMB_SIDE ==> t == Target(-1, -1)
    ensures !(size.height <= THUMB_SIDE && size.width <= THUMB_SIDE) && size.height != -1 && size.width != -1 ==>
              (t.width == THUMB_SIDE && t.height == -1) != (t.height == THUMB_SIDE && t.width == -1) &&
              (t.height == THUMB_SIDE <==> size.height >= size.width)
    ensures !(size.height <= THUMB_SIDE && size.width <= THUMB_SIDE) && (size.height == -1 || size.width == -1) ==>
              t == Target(size.width, size.height)
  {
    if size.height <= THUMB_SIDE && size.width <= THUMB_SIDE then Target(-1, -1)
    else if size.height == -1 || size.width == -1 then Target(size.width, size.height)
    else if size.height >= size.width then Target(-1, THUMB_SIDE)
    else Target(THUMB_SIDE, -1)
  }

  /** scaleImage's size decision, step by step on the locals h and w. */
  method ScaleImage(size: ImageSize) returns (t: Target)
    ensures t == TargetSize(size)
  {
    var h := size.height;
    var w := size.width;
    if h <= THUMB_SIDE && w <= THUMB_SIDE {
      h := -1;
      w := -1;
    }
    if h != -1 && w != -1 {
      if h > w {
        h := THUMB_SIDE;
        w := -1;
      } else if w > h {
        w := THUMB_SIDE;
        h := -1;
      } else if h == w {
        h := THUMB_SIDE;
        w := -1;
      }
    }
    t := Target(w, h);
  }

  /** The thumbnail icon for an image path, given the sizes of the images on disk. */
  function ScaledIcon(path: string, imageSize: string -> ImageSize): Icon
  {
    var t := TargetSize(imageSize(path));
    Scaled(path, t.width, t.height)
  }

  /** thumb.replaceAll("file:", ""): every occurrence, scanning left to right. */
  function StripFileScheme(s: string): (r: string)
    ensures |r| <= |s|
  {
    if |s| >= 5 && s[..5] == "file:" then StripFileScheme(s[5..])
    else if s == [] then []
    else [s[0]] + StripFileScheme(s[1..])
  }

  /** A path that starts with "file:" is changed by the stripping. */
  lemma FileSchemeIsStripped(s: string)
    requires |s| >= 5 && s[..5] == "file:"
    ensures StripFileScheme(s) != s
  {
    assert |StripFileScheme(s)| <= |s| - 5;
  }

  /** The THUMBNAIL cell and the icon cache after it, as the code is written:
      the cache is consulted under the thumbnail string but filled under the
      string with "file:" removed. */
  function ThumbnailCellAsWritten(cache: map<string, Icon>, thumb: Option<string>, imageSize: string -> ImageSize)
    : (r: (CellValue, map<string, Icon>))
    ensures thumb.None? ==> r == (Picture(Blank), cache)
    ensures thumb.Some? && thumb.value in cache ==> r == (Picture(cache[thumb.value]), cache)
    ensures thumb.Some? && thumb.value !in cache ==>
              var path := StripFileScheme(thumb.value);
              r.1 == cache[path := ScaledIcon(path, imageSize)] && r.0 == Picture(r.1[path])
  {
    match thumb
    case None => (Picture(Blank), cache)
    case Some(t) =>
      if t in cache then (Picture(cache[t]), cache)
      else
        var path := StripFileScheme(t);
        var icon := ScaledIcon(path, imageSize);
        (Picture(icon), cache[path := icon])
  }

  /** A "file:" thumbnail is never found in the cache the code fills: every
      repaint scales the image again. */
  lemma FileThumbnailNeverCached(cache: map<string, Icon>, t: string, imageSize: string -> ImageSize)
    requires t !in cache
    requires |t| >= 5 && t[..5] == "file:"
    ensures t !in ThumbnailCellAsWritten(cache, Some(t), imageSize).1
    ensures ThumbnailCellAsWritten(ThumbnailCellAsWritten(cache, Some(t), imageSize).1, Some(t), imageSize).1
              == ThumbnailCellAsWritten(cache, Some(t), imageSize).1
  {
    FileSchemeIsStripped(t);
  }

  /** The THUMBNAIL cell with the cache filled under the key it is looked up by. */
  function ThumbnailCell(cache: map<string, Icon>, thumb: Option<string>, imageSize: string -> ImageSize)
    : (r: (CellValue, map<string, Icon>))
    ensures thumb.None? ==> r == (Picture(Blank), cache)
    ensures thumb.Some? ==> thumb.value in r.1 && r.0 == Picture(r.1[thumb.value])
    ensures thumb.Some? && thumb.value !in cache ==>
              r.1 == cache[thumb.value := ScaledIcon(StripFileScheme(thumb.value), imageSize)]
    ensures thumb.Some? && thumb.value in cache ==> r.1 == cache
  {
    match thumb
    case None => (Picture(Blank), cache)
    case Some(t) =>
      if t in cache then (Picture(cache[t]), cache)
      else
        var icon := ScaledIcon(StripFileScheme(t), imageSize);
        (Picture(icon), cache[t := icon])
  }

  /** With the cache keyed consistently, the second lookup of a thumbnail
      is served from the cache and shows the same icon. */
  lemma ThumbnailCachedAfterFirstUse(cache: map<string, Icon>, t: string, imageSize: string -> ImageSize)
    ensures var first := ThumbnailCell(cache, Some(t), imageSize);
            ThumbnailCell(first.1, Some(t), imageSize) == first
  {
  }

  // ---------------------------------------------------------------------
  // Status icon

  /** The overlays getEntryIcon combines, in the order it combines them. */
  datatype Overlay = Winning | Green | BuyItNow | ReserveMet | ReserveUnmet | Camera | Note | Invalid | Deleted | PayPal
  {
    function Rank(): nat
    {
      match this
      case Winning => 0
      case Green => 1
      case BuyItNow => 2
      case ReserveMet => 3
      case ReserveUnmet => 4
      case Camera => 5
      case Note => 6
      case Invalid => 7
      case Deleted => 8
      case PayPal => 9
    }
  }

  /** Whether an entry's status icon carries an overlay. */
  predicate Shows(e: Entry, t: Overlay)
  {
    match t
    case Winning => e.highBidder.Some? && e.isHighBidder
    case Green =>
      e.highBidder.Some? && !e.isHighBidder && e.isSeller && e.numBidders > 0 && (!e.isReserve || e.isReserveMet)
    case BuyItNow => !e.buyNow.IsNull()
    case ReserveMet => e.isReserve && e.isReserveMet
    case ReserveUnmet => e.isReserve && !e.isReserveMet
    case Camera => e.thumbnail.Some?
    case Note => e.comment.Some?
    case Invalid => e.isInvalid
    case Deleted => e.isDeleted
    case PayPal => e.hasPaypal
  }

  predicate RankSorted(r: seq<Overlay>)
  {
    forall i, j :: 0 <= i < j < |r| ==> r[i].Rank() < r[j].Rank()
  }

  /** r is the entry's status icon: exactly the overlays it shows, in combining order. */
  predicate IsStatusIcon(e: Entry, r: seq<Overlay>)
  {
    RankSorted(r) && forall t :: t in r <==> Shows(e, t)
  }

  /** The overlay of a given rank. */
  function OverlayAt(k: nat): (t: Overlay)
    requires k < 10
    ensures t.Rank() == k
  {
    if k == 0 then Winning else if k == 1 then Green else if k == 2 then BuyItNow
    else if k == 3 then ReserveMet else if k == 4 then ReserveUnmet else if k == 5 then Camera
    else if k == 6 then Note else if k == 7 then Invalid else if k == 8 then Deleted else PayPal
  }

  function Shown(e: Entry, t: Overlay): seq<Overlay>
  {
    if Shows(e, t) then [t] else []
  }

  /** The overlays of rank below n that the entry shows, in rank order. */
  function ShownBelow(e: Entry, n: nat): seq<Overlay>
    requires n <= 10
  {
    if n == 0 then [] else ShownBelow(e, n - 1) + Shown(e, OverlayAt(n - 1))
  }

  /** ShownBelow is the ordered filter of the overlays by Shows. */
  lemma {:induction false} ShownBelowIsOrderedFilter(e: Entry, n: nat)
    requires n <= 10
    ensures RankSorted(ShownBelow(e, n))
    ensures forall t :: t in ShownBelow(e, n) <==> t.Rank() < n && Shows(e, t)
  {
    if n > 0 {
      ShownBelowIsOrderedFilter(e, n - 1);
      forall t: Overlay ensures t.Rank() == n - 1 ==> t == OverlayAt(n - 1) {
        if t.Rank() == n - 1 { RankInjective(t, OverlayAt(n - 1)); }
      }
    }
  }

  /** IconFactory.getCombination(icon, overlay), as the overlay put on top. */
  function Combine(icon: seq<Overlay>, t: Overlay): seq<Overlay>
  {
    icon + [t]
  }

  /** One step of getEntryIcon: the overlay goes on top when its condition holds. */
  function PutIf(icon: seq<Overlay>, t: Overlay, condition: bool): seq<Overlay>
  {
    if condition then Combine(icon, t) else icon
  }

  /** getEntryIcon, as a sequence of overlay tags instead of a composed image:
      exactly the overlays the entry shows, in the fixed combining order. */
  method EntryIcon(e: Entry) returns (icon: seq<Overlay>)
    ensures icon == ShownBelow(e, 10)
    ensures IsStatusIcon(e, icon)
  {
    icon := [];
    if e.isFixed { icon := []; }
    if e.highBidder.Some? {
      if e.isHighBidder {
        icon := [Winning];
      } else if e.isSeller && e.numBidders > 0 && (!e.isReserve || e.isReserveMet) {
        icon := [Green];
      }
    }
    assert icon == ShownBelow(e, 2) by {
      assert ShownBelow(e, 1) == Shown(e, Winning);
    }
    ghost var bidderMarks := icon;
    icon := PutIf(icon, BuyItNow, !e.buyNow.IsNull());
    icon := PutIf(icon, ReserveMet, e.isReserve && e.isReserveMet);
    icon := PutIf(icon, ReserveUnmet, e.isReserve && !e.isReserveMet);
    icon := PutIf(icon, Camera, e.thumbnail.Some?);
    PriceAndPictureSteps(e, bidderMarks);
    ghost var priceAndPicture := icon;
    icon := PutIf(icon, Note, e.comment.Some?);
    icon := PutIf(icon, Invalid, e.isInvalid);
    icon := PutIf(icon, Deleted, e.isDeleted);
    icon := PutIf(icon, PayPal, e.hasPaypal);
    NoteAndStateSteps(e, priceAndPicture);
    ShownBelowUnrolled(e);
    StatusIconMarksExclusive(e);
  }

  /** When the condition is the entry's own, a step adds exactly the overlays it shows. */
  lemma PutIfShown(e: Entry, icon: seq<Overlay>, t: Overlay, condition: bool)
    requires condition == Shows(e, t)
    ensures PutIf(icon, t, condition) == icon + Shown(e, t)
  {
  }

  /** The buy-now, reserve and picture steps of getEntryIcon. */
  lemma PriceAndPictureSteps(e: Entry, icon: seq<Overlay>)
    ensures PutIf(PutIf(PutIf(PutIf(icon,
              BuyItNow, !e.buyNow.IsNull()),
              ReserveMet, e.isReserve && e.isReserveMet),
              ReserveUnmet, e.isReserve && !e.isReserveMet),
              Camera, e.thumbnail.Some?)
         == icon + Shown(e, BuyItNow) + Shown(e, ReserveMet) + Shown(e, ReserveUnmet) + Shown(e, Camera)
  {
    ghost var r := icon;
    PutIfShown(e, r, BuyItNow, !e.buyNow.IsNull());
    r := r + Shown(e, BuyItNow);
    PutIfShown(e, r, ReserveMet, e.isReserve && e.isReserveMet);
    r := r + Shown(e, ReserveMet);
    PutIfShown(e, r, ReserveUnmet, e.isReserve && !e.isReserveMet);
    r := r + Shown(e, ReserveUnmet);
    PutIfShown(e, r, Camera, e.thumbnail.Some?);
  }

  /** The comment, invalid, deleted and PayPal steps of getEntryIcon. */
  lemma NoteAndStateSteps(e: Entry, icon: seq<Overlay>)
    ensures PutIf(PutIf(PutIf(PutIf(icon,
              Note, e.comment.Some?),
              Invalid, e.isInvalid),
              Deleted, e.isDeleted),
              PayPal, e.hasPaypal)
         == icon + Shown(e, Note) + Shown(e, Invalid) + Shown(e, Deleted) + Shown(e, PayPal)
  {
    ghost var r := icon;
    PutIfShown(e, r, Note, e.comment.Some?);
    r := r + Shown(e, Note);
    PutIfShown(e, r, Invalid, e.isInvalid);
    r := r + Shown(e, Invalid);
    PutIfShown(e, r, Deleted, e.isDeleted);
    r := r + Shown(e, Deleted);
    PutIfShown(e, r, PayPal, e.hasPaypal);
  }

  /** ShownBelow(e, 10) written out from rank 2 on. */
  lemma ShownBelowUnrolled(e: Entry)
    ensures ShownBelow(e, 10)
         == ShownBelow(e, 2) + Shown(e, BuyItNow) + Shown(e, ReserveMet) + Shown(e, ReserveUnmet)
          + Shown(e, Camera) + Shown(e, Note) + Shown(e, Invalid) + Shown(e, Deleted) + Shown(e, PayPal)
  {
    assert ShownBelow(e, 3) == ShownBelow(e, 2) + Shown(e, BuyItNow);
    assert ShownBelow(e, 4) == ShownBelow(e, 3) + Shown(e, ReserveMet);
    assert ShownBelow(e, 5) == ShownBelow(e, 4) + Shown(e, ReserveUnmet);
    assert ShownBelow(e, 6) == ShownBelow(e, 5) + Shown(e, Camera);
    assert ShownBelow(e, 7) == ShownBelow(e, 6) + Shown(e, Note);
    assert ShownBelow(e, 8) == ShownBelow(e, 7) + Shown(e, Invalid);
    assert ShownBelow(e, 9) == ShownBelow(e, 8) + Shown(e, Deleted);
  }

  /** The combined overlays form the entry's status icon, which never shows
      both reserve states, nor both the winning and the seller's green mark. */
  lemma StatusIconMarksExclusive(e: Entry)
    ensures IsStatusIcon(e, ShownBelow(e, 10))
    ensures !(ReserveMet in ShownBelow(e, 10) && ReserveUnmet in ShownBelow(e, 10))
    ensures !(Winning in ShownBelow(e, 10) && Green in ShownBelow(e, 10))
  {
    ShownBelowIsOrderedFilter(e, 10);
  }

  lemma RankInjective(a: Overlay, b: Overlay)
    requires a.Rank() == b.Rank()
    ensures a == b
  {
  }

  /** The status icon is determined by the entry: two sequences that both
      meet IsStatusIcon are equal. */
  lemma {:induction false} StatusIconIsUnique(e: Entry, a: seq<Overlay>, b: seq<Overlay>)
    requires IsStatusIcon(e, a) && IsStatusIcon(e, b)
    ensures a == b
  {
    SortedSameElementsEqual(a, b);
  }

  lemma HeadIsMember(b: seq<Overlay>)
    requires b != []
    ensures b[0] in b
  {
  }

  /** The first overlay of a rank-sorted sequence has the lowest rank in it. */
  lemma HeadHasLowestRank(a: seq<Overlay>, t: Overlay)
    requires RankSorted(a) && t in a
    ensures a[0].Rank() <= t.Rank()
  {
    var j :| 0 <= j < |a| && a[j] == t;
    if j > 0 { assert a[0].Rank() < a[j].Rank(); }
  }

  /** The tail of a rank-sorted sequence holds every member but the head. */
  lemma TailMembers(a: seq<Overlay>, t: Overlay)
    requires RankSorted(a) && a != []
    ensures t in a[1..] <==> t in a && t != a[0]
  {
    if t in a[1..] {
      var k :| 0 <= k < |a| - 1 && a[1..][k] == t;
      assert a[0].Rank() < a[k + 1].Rank();
    }
    if t in a && t != a[0] {
      var k :| 0 <= k < |a| && a[k] == t;
      assert a[1..][k - 1] == t;
    }
  }

  lemma {:induction false} SortedSameElementsEqual(a: seq<Overlay>, b: seq<Overlay>)
    requires RankSorted(a) && RankSorted(b)
    requires forall t :: t in a <==> t in b
    ensures a == b
    decreases |a|
  {
    if a == [] {
      if b != [] {
        HeadIsMember(b);
        assert false;
      }
    } else {
      assert a[0] in b && b[0] in a;
      HeadHasLowestRank(a, b[0]);
      HeadHasLowestRank(b, a[0]);
      RankInjective(a[0], b[0]);
      forall t ensures t in a[1..] <==> t in b[1..] {
        TailMembers(a, t);
        TailMembers(b, t);
      }
      assert RankSorted(a[1..]) && RankSorted(b[1..]);
      SortedSameElementsEqual(a[1..], b[1..]);
      assert a == [a[0]] + a[1..] && b == [b[0]] + b[1..];
    }
  }

  // ---------------------------------------------------------------------
  // Bid and snipe texts

  /** Which amount the SNIPE_OR_MAX column is about, by priority. */
  datatype BidSource = FromSnipe | FromBid | FromCancelledSnipe | NoBid

  function Source(e: Entry): BidSource
  {
    if e.isSniped then FromSnipe
    else if e.isBidOn then FromBid
    else if e.snipeCancelled && e.isComplete then FromCancelledSnipe
    else NoBid
  }

  /** "*" when the entry has an error page, otherwise nothing. */
  function ErrorNote(e: Entry): string
  {
    if e.hasErrorPage then "*" else ""
  }

  /** An amount as the snipe cells write it: the note, "Multi: " for a
      multisnipe, and the amount in parentheses when it will not be bid. */
  function Decorated(note: string, multi: bool, parens: bool, amount: string): string
  {
    note + (if multi then "Multi: " else "") + (if parens then "(" + amount + ")" else amount)
  }

  /** getMaxOrSnipe: the snipe if sniped, else the bid if bid on, else a
      cancelled snipe of a completed auction, else no value. */
  function GetMaxOrSnipe(e: Entry): (r: Currency)
    ensures Source(e) == FromSnipe ==> r == e.snipeAmount
    ensures Source(e) == FromBid ==> r == e.bid
    ensures Source(e) == FromCancelledSnipe ==> r == e.cancelledSnipe
    ensures Source(e) == NoBid ==> r == NO_VALUE
  {
    if e.isSniped then e.snipeAmount
    else if e.isBidOn then e.bid
    else if e.snipeCancelled && e.isComplete then e.cancelledSnipe
    else NO_VALUE
  }

  /** formatBid: the note and the bid, decorated as a valid snipe without a multisnipe. */
  function FormatBid(e: Entry, note: string): (r: string)
    ensures r == Decorated(note, false, false, e.bid.text)
  {
    note + e.bid.text
  }

  /** formatSnipe: the note, "Multi: " exactly when a multisnipe exists, and
      the amount in parentheses exactly when the snipe is invalid. */
  function FormatSnipe(e: Entry, note: string): (r: string)
    ensures r == Decorated(note, e.hasMultiSnipe, !e.isSnipeValid, e.snipeAmount.text)
  {
    if e.hasMultiSnipe then
      if e.isSnipeValid then note + "Multi: " + e.snipeAmount.text
      else note + "Multi: (" + e.snipeAmount.text + ")"
    else
      if e.isSnipeValid then note + e.snipeAmount.text
      else note + "(" + e.snipeAmount.text + ")"
  }

  /** formatSnipeAndBid: same priority as getMaxOrSnipe, "--" when there is nothing. */
  function FormatSnipeAndBid(e: Entry): (r: string)
    ensures Source(e) == FromSnipe ==> r == FormatSnipe(e, ErrorNote(e))
    ensures Source(e) == FromBid ==> r == FormatBid(e, ErrorNote(e))
    ensures Source(e) == FromCancelledSnipe ==> r == Decorated(ErrorNote(e), false, true, e.cancelledSnipe.text)
    ensures Source(e) == NoBid ==> r == NEVER_BID
  {
    var errorNote := ErrorNote(e);
    if e.isSniped then FormatSnipe(e, errorNote)
    else if e.isBidOn then FormatBid(e, errorNote)
    else if e.snipeCancelled && e.isComplete then errorNote + "(" + e.cancelledSnipe.text + ")"
    else NEVER_BID
  }

  /** The SNIPE_OR_MAX text shows the amount the column sorts by, in
      parentheses exactly when that amount will not be bid (an invalid snipe
      or a cancelled one), and "--" when the sort amount is no value. */
  lemma SnipeAndBidShowsMaxOrSnipe(e: Entry)
    ensures Source(e) != NoBid ==>
              FormatSnipeAndBid(e) == Decorated(ErrorNote(e), e.isSniped && e.hasMultiSnipe,
                                                Source(e) == FromCancelledSnipe || (e.isSniped && !e.isSnipeValid),
                                                GetMaxOrSnipe(e).text)
    ensures Source(e) == NoBid ==> FormatSnipeAndBid(e) == NEVER_BID && GetMaxOrSnipe(e) == NO_VALUE
  {
  }

  /** formatTotalSnipe: "--" unless sniped with both the shipping and the
      snipe set and their sum defined; otherwise the sum decorated as a snipe. */
  function FormatTotalSnipe(e: Entry, note: string, add: Adder): (r: string)
    ensures !e.isSniped || e.shippingWithInsurance.kind == NoCurrency || e.snipeAmount.kind == NoCurrency ==>
              r == NEVER_BID
    ensures e.isSniped && e.shippingWithInsurance.kind != NoCurrency && e.snipeAmount.kind != NoCurrency ==>
              match add(e.snipeAmount, e.shippingWithInsurance)
              case None => r == NEVER_BID
              case Some(total) => r == Decorated(note, e.hasMultiSnipe, !e.isSnipeValid, total.text)
  {
    if !e.isSniped then NEVER_BID
    else if e.shippingWithInsurance.kind == NoCurrency || e.snipeAmount.kind == NoCurrency then NEVER_BID
    else match add(e.snipeAmount, e.shippingWithInsurance)
      case None => NEVER_BID
      case Some(total) =>
        if e.hasMultiSnipe then
          if e.isSnipeValid then note + "Multi: " + total.text
          else note + "Multi: (" + total.text + ")"
        else
          if e.isSnipeValid then note + total.text
          else note + "(" + total.text + ")"
  }

  // ---------------------------------------------------------------------
  // Cell values

  /** The "N/A" a date column shows when there is no real end date. */
  predicate NoEndDate(e: Entry)
  {
    e.endDate.None? || e.endDate.value == FAR_FUTURE
  }

  /** getValueAt for a present entry, in every column but the status and
      thumbnail icons. `seller` is the row's Seller record. */
  function CellValueOf(e: Entry, c: Column, seller: Seller, add: Adder): (v: CellValue)
    requires c != Status && c != Thumbnail && c != WholeRow
    ensures !(v.Row? || v.Picture?)
    ensures v.NullCell? <==> c == ItemLocation && e.itemLocation.None?
  {
    var errorNote := ErrorNote(e);
    match c
    case Id => Text(e.identifier)
    case CurBid =>
      if e.isFixed then
        Text(e.currentPrice.text + " (FP" + (if e.quantity > 1 then " x " + IntToString(e.quantity) + ")" else ")"))
      else Text(e.currentPrice.text + " (" + IntToString(e.numBidders) + ")")
    case SnipeOrMax => Text(FormatSnipeAndBid(e))
    case Max => Text(if e.isBidOn then FormatBid(e, errorNote) else NEVER_BID)
    case Snipe =>
      if e.isSniped then Text(FormatSnipe(e, errorNote))
      else if e.snipeCancelled && e.isComplete then Text(errorNote + "(" + e.cancelledSnipe.text + ")")
      else Text(NEVER_BID)
    case TimeLeft =>
      if NoEndDate(e) then Text("N/A")
      else if e.timeLeftShowsEnded then FormattedDate(e.endDate.value, !e.isComplete)
      else Text(e.timeLeft)
    case EndDate => if NoEndDate(e) then Text("N/A") else FormattedDate(e.endDate.value, false)
    case Title => DecodedTitle(e.title)
    case SellerName => Text(e.sellerName)
    case Comment => Text(if e.comment.Some? then e.comment.value else "")
    case Bidder =>
      if e.highBidder.Some? && |e.highBidder.value| != 0 then Text(e.highBidder.value) else Text(NEVER_BID)
    case FixedPrice => if e.buyNow.IsNull() then Text(NEVER_BID) else Money(e.buyNow)
    case ShippingInsurance =>
      if e.shippingWithInsurance.IsNull() then Text(NEVER_BID) else Money(e.shippingWithInsurance)
    case ItemLocation => if e.itemLocation.Some? then Text(e.itemLocation.value) else NullCell
    case BidCount => if e.numBidders < 0 then Text("(FP)") else Text(IntToString(e.numBidders))
    case JustPrice => Money(e.currentPrice)
    case SellerFeedback => Number(seller.feedback)
    case SellerPositiveFeedback =>
      if seller.positivePercentage.None? || |seller.positivePercentage.value| == 0 then Text(NEVER_BID)
      else Text(seller.positivePercentage.value)
    case CurTotal =>
      if e.shippingWithInsurance.kind == NoCurrency then Text(NEVER_BID)
      else (match add(e.currentPrice, e.shippingWithInsurance)
            case Some(total) => Money(total)
            case None => Text(NEVER_BID))
    case SnipeTotal => Text(FormatTotalSnipe(e, errorNote, add))
    case Custom(i) => CustomCell(i, e)
    case Unassigned(_) => Text("")
  }

  /** The CUR_BID cell: the current price, then " (FP)" or " (FP x n)" for
      a fixed-price listing of quantity n > 1, or the bidder count in
      parentheses otherwise. */
  lemma CurBidCell(e: Entry, seller: Seller, add: Adder)
    ensures var v := CellValueOf(e, CurBid, seller, add);
            v.Text? && |v.s| > |e.currentPrice.text| && v.s[..|e.currentPrice.text|] == e.currentPrice.text
            && (e.isFixed ==> v.s[|e.currentPrice.text|..] == " (FP" + (if e.quantity > 1 then " x " + IntToString(e.quantity) + ")" else ")"))
            && (!e.isFixed ==> v.s[|e.currentPrice.text|..] == " (" + IntToString(e.numBidders) + ")")
  {
    var suffix := if e.isFixed then " (FP" + (if e.quantity > 1 then " x " + IntToString(e.quantity) + ")" else ")")
                  else " (" + IntToString(e.numBidders) + ")";
    assert CellValueOf(e, CurBid, seller, add) == Text(e.currentPrice.text + suffix);
    SplitsAt(e.currentPrice.text, suffix);
  }

  lemma SplitsAt(a: string, b: string)
    requires b != []
    ensures |a + b| > |a| && (a + b)[..|a|] == a && (a + b)[|a|..] == b
  {
  }

  /** The date cells: "N/A" without a real end date; END_DATE otherwise shows
      the formatted end date, and TIME_LEFT the time left, or the formatted
      end date (red while not complete) once the auction shows as ended. */
  lemma DateCells(e: Entry, seller: Seller, add: Adder)
    ensures NoEndDate(e) ==> CellValueOf(e, TimeLeft, seller, add) == Text("N/A") && CellValueOf(e, EndDate, seller, add) == Text("N/A")
    ensures !NoEndDate(e) ==> CellValueOf(e, EndDate, seller, add) == FormattedDate(e.endDate.value, false)
    ensures !NoEndDate(e) ==>
              var v := CellValueOf(e, TimeLeft, seller, add);
              (v.FormattedDate? <==> e.timeLeftShowsEnded)
              && (v.FormattedDate? ==> v.date == e.endDate.value && v.red == !e.isComplete)
              && (!v.FormattedDate? ==> v == Text(e.timeLeft))
  {
  }

  /** The cells that fall back to "--": buy-now and shipping when no amount
      is set, the high bidder when there is none or it is empty, the
      positive-feedback percentage when it is missing or empty, and the
      current total when shipping is unset or the sum is undefined. */
  lemma NeverBidCells(e: Entry, seller: Seller, add: Adder)
    ensures CellValueOf(e, FixedPrice, seller, add) == if e.buyNow.IsNull() then Text(NEVER_BID) else Money(e.buyNow)
    ensures CellValueOf(e, ShippingInsurance, seller, add)
              == if e.shippingWithInsurance.IsNull() then Text(NEVER_BID) else Money(e.shippingWithInsurance)
    ensures CellValueOf(e, Bidder, seller, add)
              == if e.highBidder.Some? && |e.highBidder.value| != 0 then Text(e.highBidder.value) else Text(NEVER_BID)
    ensures CellValueOf(e, SellerPositiveFeedback, seller, add)
              == if seller.positivePercentage.Some? && |seller.positivePercentage.value| != 0
                 then Text(seller.positivePercentage.value) else Text(NEVER_BID)
    ensures var v := CellValueOf(e, CurTotal, seller, add);
            (v.Money? <==> e.shippingWithInsurance.kind != NoCurrency && add(e.currentPrice, e.shippingWithInsurance).Some?)
            && (v.Money? ==> v.amount == add(e.currentPrice, e.shippingWithInsurance).value)
            && (!v.Money? ==> v == Text(NEVER_BID))
  {
  }

  /** The text cells that show one field of the entry as it is; a null
      location is passed through as null, a null comment shows as empty. */
  lemma TextCells(e: Entry, seller: Seller, add: Adder)
    ensures CellValueOf(e, Id, seller, add) == Text(e.identifier)
    ensures CellValueOf(e, Title, seller, add) == DecodedTitle(e.title)
    ensures CellValueOf(e, SellerName, seller, add) == Text(e.sellerName)
    ensures CellValueOf(e, ItemLocation, seller, add)
            == if e.itemLocation.Some? then Text(e.itemLocation.value) else NullCell
    ensures CellValueOf(e, Comment, seller, add) == Text(if e.comment.Some? then e.comment.value else "")
  {
  }

  /** The price, feedback, snipe-total and custom cells; any other column shows "". */
  lemma OtherCells(e: Entry, seller: Seller, add: Adder, i: int)
    ensures CellValueOf(e, JustPrice, seller, add) == Money(e.currentPrice)
    ensures CellValueOf(e, SellerFeedback, seller, add) == Number(seller.feedback)
    ensures CellValueOf(e, SnipeTotal, seller, add) == Text(FormatTotalSnipe(e, ErrorNote(e), add))
    ensures CellValueOf(e, Custom(i), seller, add) == CustomCell(i, e)
    ensures CellValueOf(e, Unassigned(i), seller, add) == Text("")
  {
  }

  /** While no snipe is set and a bid is, the MAX column shows what SNIPE_OR_MAX shows. */
  lemma MaxColumnAgreesWithSnipeOrMax(e: Entry, seller: Seller, add: Adder)
    requires !e.isSniped && e.isBidOn
    ensures CellValueOf(e, Max, seller, add) == CellValueOf(e, SnipeOrMax, seller, add)
  {
  }

  /** Unless a bid outranks it, the SNIPE column shows what SNIPE_OR_MAX shows. */
  lemma SnipeColumnAgreesWithSnipeOrMax(e: Entry, seller: Seller, add: Adder)
    requires e.isSniped || !e.isBidOn
    ensures CellValueOf(e, Snipe, seller, add) == CellValueOf(e, SnipeOrMax, seller, add)
  {
  }

  /** The BIDCOUNT column is "(FP)" exactly for a negative count, and
      otherwise reads back as the count. */
  lemma BidCountColumnReadsBack(e: Entry, seller: Seller, add: Adder)
    requires INT_MIN <= e.numBidders <= INT_MAX
    ensures CellValueOf(e, BidCount, seller, add) == Text("(FP)") <==> e.numBidders < 0
    ensures e.numBidders >= 0 ==> ParseInt(Some(CellValueOf(e, BidCount, seller, add).s)) == Some(e.numBidders)
  {
    if e.numBidders >= 0 {
      ParseDecimalOfIntToString(e.numBidders, INT_MIN, INT_MAX);
      assert IntToString(e.numBidders) != "(FP)" by {
        assert IsDigit(IntToString(e.numBidders)[0]);
      }
    }
  }

  // ---------------------------------------------------------------------
  // The table model and its row list

  /** auctionTableModel: the displayed rows (null rows included) and the
      thumbnail icon cache (a static map in the source, one per model here). */
  class AuctionTableModel {
    var rows: seq<Option<Entry>>
    var iconCache: map<string, Icon>

    constructor (list: seq<Option<Entry>>)
      ensures rows == list && iconCache == map[]
    {
      rows := list;
      iconCache := map[];
    }

    /** insert: appends the entry and returns its index, the new last one. */
    method Insert(o: Option<Entry>) returns (index: int)
      modifies this
      ensures rows == old(rows) + [o]
      ensures index == |rows| - 1 && rows[index] == o
      ensures iconCache == old(iconCache)
    {
      rows := rows + [o];
      index := |rows| - 1;
    }

    /** delete: removes exactly the given row; an index out of range (where
        the list throws) changes nothing and reports false. */
    method Delete(row: int) returns (ok: bool)
      modifies this
      ensures ok <==> 0 <= row < |old(rows)|
      ensures ok ==> rows == old(rows)[..row] + old(rows)[row + 1..]
      ensures ok ==> |rows| == |old(rows)| - 1
      ensures !ok ==> rows == old(rows)
      ensures iconCache == old(iconCache)
    {
      ok := 0 <= row < |rows|;
      if ok {
        rows := rows[..row] + rows[row + 1..];
      }
    }

    /** getValueAt. A row out of range shows the column's dummy value; a
        null row is removed and shows "*"; the status column shows the
        entry's overlays, the thumbnail column goes through the icon cache,
        and every other column shows CellValueOf. */
    method GetValueAt(row: int, c: Column, seller: Seller, add: Adder, imageSize: string -> ImageSize)
      returns (v: CellValue)
      modifies this
      ensures !(0 <= row < |old(rows)|) ==> v == DummyValue(c) && rows == old(rows) && iconCache == old(iconCache)
      ensures 0 <= row < |old(rows)| && c == WholeRow ==>
                v == Row(old(rows)[row]) && rows == old(rows) && iconCache == old(iconCache)
      ensures 0 <= row < |old(rows)| && c != WholeRow && old(rows)[row].None? ==>
                v == Text("*") && rows == old(rows)[..row] + old(rows)[row + 1..] && iconCache == old(iconCache)
      ensures 0 <= row < |old(rows)| && c != WholeRow && old(rows)[row].Some? ==> rows == old(rows)
      ensures 0 <= row < |old(rows)| && c == Status && old(rows)[row].Some? ==>
                v.Picture? && v.icon.Composite? && IsStatusIcon(old(rows)[row].value, v.icon.overlays) &&
                iconCache == old(iconCache)
      ensures 0 <= row < |old(rows)| && c == Thumbnail && old(rows)[row].Some? ==>
                (v, iconCache) == ThumbnailCell(old(iconCache), old(rows)[row].value.thumbnail, imageSize)
      ensures 0 <= row < |old(rows)| && c !in {WholeRow, Status, Thumbnail} && old(rows)[row].Some? ==>
                v == CellValueOf(old(rows)[row].value, c, seller, add) && iconCache == old(iconCache)
    {
      if !(0 <= row < |rows|) {
        v := DummyValue(c);
        return;
      }
      var entry := rows[row];
      if c == WholeRow {
        v := Row(entry);
        return;
      }
      if entry.None? {
        rows := rows[..row] + rows[row + 1..];
        v := Text("*");
        return;
      }
      var e := entry.value;
      if c == Status {
        var overlays := EntryIcon(e);
        v := Picture(Composite(overlays));
      } else if c == Thumbnail {
        match e.thumbnail
        case None =>
          v := Picture(Blank);
        case Some(thumb) =>
          if thumb in iconCache {
            v := Picture(iconCache[thumb]);
          } else {
            var path := StripFileScheme(thumb);
            var t := ScaleImage(imageSize(path));
            var thumbIcon := Scaled(path, t.width, t.height);
            iconCache := iconCache[thumb := thumbIcon];
            v := Picture(thumbIcon);
          }
      } else {
        v := CellValueOf(e, c, seller, add);
      }
    }
  }
}
