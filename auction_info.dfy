/** AuctionInfo: the record of one auction listing's scraped attributes, how
    the tags of an XML snapshot are written into it, how it is written back
    out as XML, its seller reference, its thumbnail URLs, and the id lists
    its static queries build. */
module Auction {
  import opened Domain
  import opened JavaText

  // ---------------------------------------------------------------------
  // The attribute store

  /** A typed value in the record store; Null is what a setter given null stores. */
  datatype Value =
    | Str(s: string)
    | Int(n: int)
    | Flag(b: bool)
    | Time(d: Date)
    | Money(amount: Currency, inDefaultCurrency: bool)
    | Null

  function StrValue(s: Option<string>): Value
  {
    if s.Some? then Str(s.value) else Null
  }

  function IdValue(id: Option<int>): Value
  {
    if id.Some? then Int(id.value) else Null
  }

  function DateValue(d: Option<Date>): Value
  {
    if d.Some? then Time(d.value) else Null
  }

  /** The state of an AuctionInfo that tag handling changes: the attribute
      store, the seller reference and the default currency. */
  datatype InfoRecord = InfoRecord(attributes: map<string, Value>, seller: Option<Seller>, defaultCurrency: Currency)
  {
    /** The store after one setter call. */
    function Put(key: string, v: Value): InfoRecord
    {
      this.(attributes := attributes[key := v])
    }

    /** The seller, or a fresh `new Seller()` when there is none. */
    function SellerOrBlank(): Seller
    {
      if seller.Some? then seller.value else BLANK_SELLER
    }
  }

  /** The result of a setter that may throw: ok is false when Java throws
      NumberFormatException, and record holds what was written before it. */
  datatype Outcome = Outcome(ok: bool, record: InfoRecord)

  function Done(r: InfoRecord): Outcome { Outcome(true, r) }

  function Thrown(r: InfoRecord): Outcome { Outcome(false, r) }

  /** infoTags: the XML tag names, indexed as handleTag dispatches on them. */
  const INFO_TAGS: seq<string> := [
    "title", "seller", "highbidder", "bidcount", "start", "end",
    "currently", "dutch", "reserve", "private", "content",
    "shipping", "insurance", "buynow", "usprice", "fixed", "minimum",
    "paypal", "location", "feedback", "percentage", "sellerinfo", "buy_now_us"]

  /** What handleTag reads from one XML element: its contents, the decoded
      contents, its properties, whether it has a "name" child, the Seller that
      Seller.newFromXML builds from it and the Currency that
      Currency.getCurrency builds from its CURRENCY and PRICE properties.
      XMLElement keeps property names upper-cased. */
  datatype Element = Element(
    contents: Option<string>,
    decoded: Option<string>,
    properties: map<string, string>,
    hasNameChild: bool,
    asSeller: Seller,
    amount: Currency)
  {
    function Property(name: string): Option<string>
    {
      if name in properties then Some(properties[name]) else None
    }
  }

  /** The Seller operations setSellerName calls: the static
      Seller.makeSeller(name), the instance makeSeller(name, old) and saveDB,
      which returns the new row id as text or null. */
  datatype SellerServices = SellerServices(
    make: string -> Seller,
    remake: (string, Seller) -> Seller,
    save: Seller -> Option<string>)

  // ---------------------------------------------------------------------
  // Tag handling, as a function of the record

  predicate IsMonetaryTag(i: int) { i == 6 || i == 11 || i == 12 || i == 13 || i == 14 || i == 16 || i == 22 }

  predicate IsFlagTag(i: int) { i == 7 || i == 8 || i == 9 || i == 15 || i == 17 }

  /** Whether insurance is optional: OPTIONAL absent or exactly "true". */
  function InsuranceOptional(el: Element): bool
  {
    el.Property("OPTIONAL").None? || el.Property("OPTIONAL") == Some("true")
  }

  /** The monetary tags: the amount under the tag's own name, in the default
      currency except for the two US-price tags; then the per-tag extras. */
  function MonetaryEffect(i: int, el: Element, r: InfoRecord): InfoRecord
    requires IsMonetaryTag(i)
  {
    var amount := el.amount;
    var r1 := r.Put(INFO_TAGS[i], Money(amount, i != 22 && i != 14));
    if i == 13 then
      r1.(defaultCurrency := amount)
    else if i == 6 then
      var r2 :=
        if amount.kind == USDollar then r1.Put("us_cur", Money(amount, false)).Put("currency", Str(amount.fullName))
        else r1;
      r2.(defaultCurrency := amount)
    else if i == 12 then
      r1.Put("insurance_optional", Flag(InsuranceOptional(el)))
    else
      r1
  }

  /** The flag tags: the flag set, then the quantity of a dutch or
      fixed-price listing (1 when QUANTITY is absent), or whether the reserve
      is met. */
  function FlagEffect(i: int, el: Element, r: InfoRecord): Outcome
    requires IsFlagTag(i)
  {
    var r1 := r.Put(INFO_TAGS[i], Flag(true));
    if i == 7 || i == 15 then
      var quant := el.Property("QUANTITY");
      if quant.None? then Done(r1.Put("quantity", Int(1)))
      else
        match ParseInt(quant)
        case None => Thrown(r1)
        case Some(n) => Done(r1.Put("quantity", Int(n)))
    else if i == 8 then
      Done(r1.Put("reserve_met", Flag(el.Property("MET") == Some("true"))))
    else
      Done(r1)
  }

  /** setSellerName: nothing for a null or empty name; otherwise the seller
      is made (from the trimmed name) or remade, and its id, or the id
      saveDB returns when it has none, is stored as "seller_id". */
  function SellerNameEffect(name: Option<string>, r: InfoRecord, svc: SellerServices): (out: Outcome)
    ensures name.None? || name == Some("") ==> out == Done(r)
    ensures out.record.defaultCurrency == r.defaultCurrency
    ensures name.Some? && name != Some("") ==> out.record.seller.Some?
    ensures !out.ok ==> out.record.attributes == r.attributes
  {
    if name.None? || |name.value| == 0 then Done(r)
    else
      var s := if r.seller.None? then svc.make(Trim(name.value)) else svc.remake(name.value, r.seller.value);
      var r1 := r.(seller := Some(s));
      if s.id.None? || s.id == Some(0) then
        var raw := svc.save(s);
        if raw.Some? && |raw.value| != 0 then
          match ParseInt(raw)
          case None => Thrown(r1)
          case Some(n) => Done(r1.Put("seller_id", Int(n)))
        else
          Done(r1.Put("seller_id", IdValue(s.id)))
      else
        Done(r1.Put("seller_id", IdValue(s.id)))
  }

  /** handleTag(i, element), as the change it makes to the record. */
  function TagEffect(i: int, el: Element, r: InfoRecord, svc: SellerServices): (out: Outcome)
    ensures !(i == 1 || i == 19 || i == 20 || i == 21) ==> out.record.seller == r.seller
    ensures i != 6 && i != 13 ==> out.record.defaultCurrency == r.defaultCurrency
    ensures !out.ok ==> i == 1 || i == 3 || i == 4 || i == 5 || i == 7 || i == 15 || i == 19
  {
    if i == 0 then Done(r.Put("title", StrValue(el.decoded)))
    else if i == 1 then
      if !el.hasNameChild then SellerNameEffect(el.contents, r, svc)
      else Done(r.(seller := Some(el.asSeller)))
    else if i == 2 || i == 18 then Done(r.Put(INFO_TAGS[i], StrValue(el.contents)))
    else if i == 3 then
      match ParseInt(el.contents)
      case None => Thrown(r)
      case Some(n) => Done(r.Put("bidcount", Int(n)))
    else if i == 4 || i == 5 then
      match ParseLong(el.contents)
      case None => Thrown(r)
      case Some(n) => Done(r.Put(INFO_TAGS[i], Time(Date(n))))
    else if IsMonetaryTag(i) then Done(MonetaryEffect(i, el, r))
    else if IsFlagTag(i) then FlagEffect(i, el, r)
    else if i == 19 then
      var s := r.SellerOrBlank();
      var r1 := r.(seller := Some(s));
      if el.contents.None? then Done(r1)
      else
        match ParseInt(el.contents)
        case None => Thrown(r1)
        case Some(n) => Done(r1.(seller := Some(s.(feedback := n))))
    else if i == 20 then
      Done(r.(seller := Some(r.SellerOrBlank().(positivePercentage := el.contents))))
    else if i == 21 then Done(r.(seller := Some(el.asSeller)))
    else Done(r)
  }

  /** The attribute keys handleTag(i) may write. */
  function KeysWritten(i: int): set<string>
  {
    if i == 1 then {"seller_id"}
    else if 0 <= i < |INFO_TAGS| && i != 10 && i != 19 && i != 20 && i != 21 then
      {INFO_TAGS[i]}
      + (if i == 6 then {"us_cur", "currency"} else {})
      + (if i == 12 then {"insurance_optional"} else {})
      + (if i == 7 || i == 15 then {"quantity"} else {})
      + (if i == 8 then {"reserve_met"} else {})
    else {}
  }

  // ---------------------------------------------------------------------
  // Properties of tag handling

  /** handleTag writes no attribute outside KeysWritten, succeeds or not. */
  lemma TagWritesOnlyItsKeys(i: int, el: Element, r: InfoRecord, svc: SellerServices, k: string)
    requires k !in KeysWritten(i)
    ensures var a := TagEffect(i, el, r, svc).record.attributes;
            (k in a <==> k in r.attributes) && (k in a ==> a[k] == r.attributes[k])
  {
    if IsMonetaryTag(i) {
      MonetaryWritesOnlyItsKeys(i, el, r, k);
    } else if IsFlagTag(i) {
      FlagWritesOnlyItsKeys(i, el, r, k);
    } else if i == 1 && !el.hasNameChild {
      SellerNameWritesOnlySellerId(el.contents, r, svc, k);
    }
  }

  lemma MonetaryWritesOnlyItsKeys(i: int, el: Element, r: InfoRecord, k: string)
    requires IsMonetaryTag(i) && k !in KeysWritten(i)
    ensures var a := MonetaryEffect(i, el, r).attributes;
            (k in a <==> k in r.attributes) && (k in a ==> a[k] == r.attributes[k])
  {
  }

  lemma FlagWritesOnlyItsKeys(i: int, el: Element, r: InfoRecord, k: string)
    requires IsFlagTag(i) && k !in KeysWritten(i)
    ensures var a := FlagEffect(i, el, r).record.attributes;
            (k in a <==> k in r.attributes) && (k in a ==> a[k] == r.attributes[k])
  {
  }

  lemma SellerNameWritesOnlySellerId(name: Option<string>, r: InfoRecord, svc: SellerServices, k: string)
    requires k != "seller_id"
    ensures var a := SellerNameEffect(name, r, svc).record.attributes;
            (k in a <==> k in r.attributes) && (k in a ==> a[k] == r.attributes[k])
  {
  }

  /** Indices with no case, "content" (10) among them, change nothing. */
  lemma UnhandledTagChangesNothing(i: int, el: Element, r: InfoRecord, svc: SellerServices)
    requires i < 0 || i == 10 || i >= |INFO_TAGS|
    ensures TagEffect(i, el, r, svc) == Done(r)
  {
  }

  /** The dutch and fixed tags set their flag and the quantity: the QUANTITY
      property read as an int, 1 when it is absent; a QUANTITY that is not an
      int throws after the flag is set. */
  lemma QuantityFromTag(i: int, el: Element, r: InfoRecord, svc: SellerServices)
    requires i == 7 || i == 15
    ensures var out := TagEffect(i, el, r, svc);
            out.record.attributes[INFO_TAGS[i]] == Flag(true)
            && (el.Property("QUANTITY").None? ==> out.ok && out.record.attributes["quantity"] == Int(1))
            && (out.ok <==> el.Property("QUANTITY").None? || ParseInt(el.Property("QUANTITY")).Some?)
            && (el.Property("QUANTITY").Some? && out.ok ==>
                  out.record.attributes["quantity"] == Int(ParseInt(el.Property("QUANTITY")).value))
            && (!out.ok ==> out.record == r.Put(INFO_TAGS[i], Flag(true)))
  {
  }

  /** The reserve tag sets "reserve" and sets "reserve_met" exactly when MET is "true". */
  lemma ReserveMetFromTag(el: Element, r: InfoRecord, svc: SellerServices)
    ensures var out := TagEffect(8, el, r, svc);
            out.ok && out.record.attributes["reserve"] == Flag(true)
            && (out.record.attributes["reserve_met"] == Flag(true) <==> el.Property("MET") == Some("true"))
  {
  }

  /** The insurance tag stores the amount and makes insurance optional unless
      OPTIONAL is present and not "true". */
  lemma InsuranceOptionalFromTag(el: Element, r: InfoRecord, svc: SellerServices)
    ensures var out := TagEffect(12, el, r, svc);
            out.ok && out.record.attributes["insurance"] == Money(el.amount, true)
            && out.record.attributes["insurance_optional"]
               == Flag(el.Property("OPTIONAL").None? || el.Property("OPTIONAL") == Some("true"))
  {
  }

  /** Monetary tags store the element's amount under the tag, flagged as in
      the default currency exactly for the tags other than usprice (14) and
      buy_now_us (22). */
  lemma MonetaryTagStoresAmount(i: int, el: Element, r: InfoRecord, svc: SellerServices)
    requires IsMonetaryTag(i)
    ensures var out := TagEffect(i, el, r, svc);
            out.ok && out.record.attributes[INFO_TAGS[i]].Money?
            && out.record.attributes[INFO_TAGS[i]].amount == el.amount
            && (out.record.attributes[INFO_TAGS[i]].inDefaultCurrency <==> i != 14 && i != 22)
            && out.record.defaultCurrency == (if i == 6 || i == 13 then el.amount else r.defaultCurrency)
  {
  }

  /** The "currently" tag records a US-dollar amount also as "us_cur" and
      its currency name; any other currency leaves both as they were. */
  lemma CurrentlyInDollars(el: Element, r: InfoRecord, svc: SellerServices)
    ensures var a := TagEffect(6, el, r, svc).record.attributes;
            if el.amount.kind == USDollar then
              a["us_cur"] == Money(el.amount, false) && a["currency"] == Str(el.amount.fullName)
            else
              ("us_cur" in a <==> "us_cur" in r.attributes) && ("us_cur" in a ==> a["us_cur"] == r.attributes["us_cur"])
              && ("currency" in a <==> "currency" in r.attributes) && ("currency" in a ==> a["currency"] == r.attributes["currency"])
  {
  }

  /** A bid count that parses is stored; one that does not throws and leaves the record as it was. */
  lemma BidCountFromTag(el: Element, r: InfoRecord, svc: SellerServices)
    ensures var out := TagEffect(3, el, r, svc);
            (out.ok <==> ParseInt(el.contents).Some?)
            && (out.ok ==> out.record == r.Put("bidcount", Int(ParseInt(el.contents).value)))
            && (!out.ok ==> out.record == r)
  {
  }

  /** setSellerName with a null or empty name changes nothing. */
  lemma EmptySellerNameChangesNothing(name: Option<string>, r: InfoRecord, svc: SellerServices)
    requires name.None? || name == Some("")
    ensures SellerNameEffect(name, r, svc) == Done(r)
  {
  }

  /** setSellerName with a name makes the seller the record refers to and
      stores its id: the seller's own when it has a non-zero one, otherwise
      the id saveDB returns (when that is non-empty). */
  lemma SellerNameStoresId(name: string, r: InfoRecord, svc: SellerServices)
    requires name != ""
    ensures var out := SellerNameEffect(Some(name), r, svc);
            var s := if r.seller.None? then svc.make(Trim(name)) else svc.remake(name, r.seller.value);
            var unsaved := s.id.None? || s.id == Some(0);
            var saved := svc.save(s);
            out.record.seller == Some(s)
            && (out.ok <==> !(unsaved && saved.Some? && saved != Some("") && ParseInt(saved).None?))
            && (!unsaved ==> out.record.attributes["seller_id"] == Int(s.id.value))
            && (unsaved && (saved.None? || saved == Some("")) ==> out.record.attributes["seller_id"] == IdValue(s.id))
            && (unsaved && out.ok && saved.Some? && saved != Some("") ==>
                  out.record.attributes["seller_id"] == Int(ParseInt(saved).value))
            && (!out.ok ==> out.record.attributes == r.attributes)
  {
  }

  /** The feedback tag gives the record a seller when it had none (a blank
      one), and changes only its feedback score, when the contents parse. */
  lemma FeedbackFromTag(el: Element, r: InfoRecord, svc: SellerServices)
    ensures var out := TagEffect(19, el, r, svc);
            out.record.seller.Some?
            && out.record.attributes == r.attributes
            && (out.ok <==> el.contents.None? || ParseInt(el.contents).Some?)
            && (el.contents.Some? && out.ok ==> out.record.seller.value.feedback == ParseInt(el.contents).value)
            && (r.seller.Some? ==> out.record.seller.value.name == r.seller.value.name)
            && (out.ok ==> out.record.seller == Some(if el.contents.Some?
                                                     then r.SellerOrBlank().(feedback := ParseInt(el.contents).value)
                                                     else r.SellerOrBlank()))
            && (!out.ok ==> out.record.seller == Some(r.SellerOrBlank()))
  {
  }

  // ---------------------------------------------------------------------
  // What the AuctionCore getters read back from the store

  /** The stored value under key, Null when the key was never set. */
  function Get(r: InfoRecord, key: string): Value
  {
    if key in r.attributes then r.attributes[key] else Null
  }

  /** getString: the text stored under key, null otherwise. */
  function StringOf(r: InfoRecord, key: string): Option<string>
  {
    if Get(r, key).Str? then Some(Get(r, key).s) else None
  }

  /** getMonetary: the amount stored under key, null when none or a null amount. */
  function MoneyOf(r: InfoRecord, key: string): Option<Currency>
  {
    if Get(r, key).Money? && !Get(r, key).amount.IsNull() then Some(Get(r, key).amount) else None
  }

  /** getBoolean: false unless the flag was set true. */
  function FlagOf(r: InfoRecord, key: string): bool
  {
    Get(r, key) == Flag(true)
  }

  /** getNumBids: the stored bid count, 0 when none. */
  function NumBids(r: InfoRecord): int
  {
    if Get(r, "bidcount").Int? then Get(r, "bidcount").n else 0
  }

  /** getQuantity: the stored quantity, 1 when none. */
  function Quantity(r: InfoRecord): int
  {
    if Get(r, "quantity").Int? then Get(r, "quantity").n else 1
  }

  /** getIdentifier, as string concatenation prints it: "null" when unset. */
  function IdentifierText(r: InfoRecord): string
  {
    if StringOf(r, "identifier").Some? then StringOf(r, "identifier").value else "null"
  }

  /** get("seller_id"): the stored seller id as text, null when unset. */
  function SellerIdText(r: InfoRecord): Option<string>
  {
    match Get(r, "seller_id")
    case Int(n) => Some(IntToString(n))
    case Str(s) => Some(s)
    case _ => None
  }

  // ---------------------------------------------------------------------
  // Seller fallbacks

  /** refreshSeller: a record with no seller looks one up by its stored
      seller id; a record with a seller, or with no id, keeps what it has. */
  function RefreshedSeller(r: InfoRecord, find: string -> Option<Seller>): (s: Option<Seller>)
    ensures r.seller.Some? ==> s == r.seller
    ensures r.seller.None? && SellerIdText(r).None? ==> s.None?
    ensures r.seller.None? && SellerIdText(r).Some? ==> s == find(SellerIdText(r).value)
  {
    if r.seller.None? && SellerIdText(r).Some? then find(SellerIdText(r).value) else r.seller
  }

  /** Refreshing twice finds what refreshing once found. */
  lemma RefreshSellerIdempotent(r: InfoRecord, find: string -> Option<Seller>)
    ensures var r1 := r.(seller := RefreshedSeller(r, find));
            RefreshedSeller(r1, find) == RefreshedSeller(r, find)
  {
  }

  /** getSellerName's answer: the seller's name, "(unknown)" without a seller. */
  function SellerNameOf(s: Option<Seller>): (name: string)
    ensures s.None? ==> name == "(unknown)"
    ensures s.Some? ==> name == s.value.name
  {
    if s.Some? then s.value.name else "(unknown)"
  }

  /** getPositiveFeedbackPercentage's answer: "n/a" without a seller. */
  function PercentageOf(s: Option<Seller>): (p: Option<string>)
    ensures s.None? ==> p == Some("n/a")
    ensures s.Some? ==> p == s.value.positivePercentage
  {
    if s.Some? then s.value.positivePercentage else Some("n/a")
  }

  /** getFeedbackScore's answer: 0 without a seller. */
  function FeedbackScoreOf(s: Option<Seller>): (score: int)
    ensures s.None? ==> score == 0
    ensures s.Some? ==> score == s.value.feedback
  {
    if s.Some? then s.value.feedback else 0
  }

  // ---------------------------------------------------------------------
  // End date and thumbnails

  /** setEnd's normalisation: no end date for null and for FAR_FUTURE. */
  function EndValue(end: Option<Date>): (stored: Option<Date>)
    ensures stored.None? <==> end.None? || end == Some(FAR_FUTURE)
    ensures stored.Some? ==> stored == end
  {
    if end.None? || end == Some(FAR_FUTURE) then None else end
  }

  /** Normalising a normalised end date changes nothing. */
  lemma EndValueIdempotent(end: Option<Date>)
    ensures EndValue(EndValue(end)) == EndValue(end)
  {
  }

  const THUMBNAIL_HOST := "http://thumbs.ebaystatic.com/pict/"

  /** getThumbnailById: the eBay thumbnail URL for an item id. */
  function ThumbnailById(id: string): (url: string)
    ensures |url| == |THUMBNAIL_HOST| + |id| + 4
    ensures url[..|THUMBNAIL_HOST|] == THUMBNAIL_HOST
    ensures url[|url| - 4..] == ".jpg"
  {
    THUMBNAIL_HOST + id + ".jpg"
  }

  /** The id can be read back out of the URL, so distinct ids give distinct URLs. */
  lemma ThumbnailIdRoundTrip(id: string)
    ensures var url := ThumbnailById(id);
            url[|THUMBNAIL_HOST|..|url| - 4] == id
  {
    var url := ThumbnailById(id);
    assert url == THUMBNAIL_HOST + id + ".jpg";
    assert url[|THUMBNAIL_HOST|..|url| - 4] == id;
  }

  lemma ThumbnailByIdInjective(a: string, b: string)
    requires a != b
    ensures ThumbnailById(a) != ThumbnailById(b)
  {
    ThumbnailIdRoundTrip(a);
    ThumbnailIdRoundTrip(b);
  }

  // ---------------------------------------------------------------------
  // Comma-separated id lists

  /** The items joined in order with ", " between neighbours. */
  function Join(items: seq<string>): string
  {
    if |items| == 0 then ""
    else if |items| == 1 then items[0]
    else items[0] + ", " + Join(items[1..])
  }

  /** Appending an item to a non-empty list adds one separator and the item. */
  lemma {:induction false} JoinAppend(items: seq<string>, x: string)
    requires items != []
    ensures Join(items + [x]) == Join(items) + ", " + x
    decreases |items|
  {
    if |items| > 1 {
      assert (items + [x])[1..] == items[1..] + [x];
      JoinAppend(items[1..], x);
    } else {
      assert (items + [x])[1..] == [x];
    }
  }

  /** buildCSL: a "first" flag keeps the separator off the front. */
  method BuildCsl(items: seq<string>) returns (csl: string)
    ensures csl == Join(items)
    ensures items == [] ==> csl == ""
  {
    csl := "";
    var first := true;
    for k := 0 to |items|
      invariant first <==> k == 0
      invariant csl == Join(items[..k])
    {
      if !first {
        csl := csl + ", ";
      }
      csl := csl + items[k];
      first := false;
      if k > 0 {
        JoinAppend(items[..k], items[k]);
      }
      assert items[..k + 1] == items[..k] + [items[k]];
    }
    assert items[..|items|] == items;
  }

  function CommaCount(s: string): nat
  {
    if s == [] then 0 else (if s[0] == ',' then 1 else 0) + CommaCount(s[1..])
  }

  lemma {:induction false} CommaCountAppend(a: string, b: string)
    ensures CommaCount(a + b) == CommaCount(a) + CommaCount(b)
    decreases |a|
  {
    if a != [] {
      assert (a + b)[1..] == a[1..] + b;
      CommaCountAppend(a[1..], b);
    } else {
      assert a + b == b;
    }
  }

  lemma {:induction false} NoCommaCountsZero(s: string)
    requires ',' !in s
    ensures CommaCount(s) == 0
    decreases |s|
  {
    if s != [] {
      NoCommaCountsZero(s[1..]);
    }
  }

  predicate NoCommas(items: seq<string>)
  {
    forall k :: 0 <= k < |items| ==> ',' !in items[k]
  }

  /** Items without commas of their own are joined with exactly n - 1 separators. */
  lemma {:induction false} JoinSeparatorCount(items: seq<string>)
    requires items != [] && NoCommas(items)
    ensures CommaCount(Join(items)) == |items| - 1
    decreases |items|
  {
    NoCommaCountsZero(items[0]);
    if |items| > 1 {
      JoinSeparatorCount(items[1..]);
      CommaCountAppend(items[0], ", ");
      CommaCountAppend(items[0] + ", ", Join(items[1..]));
      assert CommaCount(", ") == 1;
    }
  }

  /** The index of the first comma in s, |s| when there is none. */
  function FirstComma(s: string): (i: nat)
    ensures i <= |s|
    ensures i < |s| ==> s[i] == ','
    ensures forall k :: 0 <= k < i ==> s[k] != ','
  {
    if s == [] then 0 else if s[0] == ',' then 0 else 1 + FirstComma(s[1..])
  }

  /** Splits a list written by Join back into its items. */
  function Split(s: string): seq<string>
    decreases |s|
  {
    var i := FirstComma(s);
    if i == |s| then [s]
    else [s[..i]] + Split(s[if i + 2 <= |s| then i + 2 else |s|..])
  }

  lemma {:induction false} FirstCommaAfter(a: string, b: string)
    requires ',' !in a && b != [] && b[0] == ','
    ensures FirstComma(a + b) == |a|
    decreases |a|
  {
    if a == [] {
      assert a + b == b;
    } else {
      assert a[0] in a;
      assert (a + b)[1..] == a[1..] + b;
      FirstCommaAfter(a[1..], b);
    }
  }

  lemma {:induction false} NoCommaFirstComma(a: string)
    requires ',' !in a
    ensures FirstComma(a) == |a|
    decreases |a|
  {
    if a != [] {
      assert a[0] in a;
      NoCommaFirstComma(a[1..]);
    }
  }

  /** Splitting an item without commas off the front of a list. */
  lemma SplitStep(a: string, rest: string)
    requires ',' !in a
    ensures Split(a + ", " + rest) == [a] + Split(rest)
  {
    var s := a + ", " + rest;
    assert s == a + (", " + rest);
    FirstCommaAfter(a, ", " + rest);
    assert s[..|a|] == a;
    assert s[|a| + 2..] == rest;
  }

  /** Reading a written list back gives the items, when no item holds a comma. */
  lemma {:induction false} SplitJoin(items: seq<string>)
    requires items != [] && NoCommas(items)
    ensures Split(Join(items)) == items
    decreases |items|
  {
    if |items| == 1 {
      NoCommaFirstComma(items[0]);
    } else {
      assert ',' !in items[0];
      assert NoCommas(items[1..]) by {
        forall k | 0 <= k < |items[1..]| ensures ',' !in items[1..][k] {
          assert items[1..][k] == items[k + 1];
        }
      }
      SplitStep(items[0], Join(items[1..]));
      SplitJoin(items[1..]);
      assert items == [items[0]] + items[1..];
    }
  }

  /** Integer.toString of each id, in order. */
  function IdTexts(ids: seq<int>): seq<string>
  {
    seq(|ids|, k requires 0 <= k < |ids| => IntToString(ids[k]))
  }

  /** The WHERE clause deleteAll and findAllByIds use. */
  function IdInClause(csl: string): string
  {
    "id IN (" + csl + ")"
  }

  /** deleteAll: an empty list is done at once, with no query; otherwise
      the store deletes the rows whose id is in the list. */
  method DeleteAll(ids: seq<int>, deleteBy: string -> bool) returns (ok: bool, query: Option<string>)
    ensures ids == [] ==> ok && query.None?
    ensures ids != [] ==> query == Some(IdInClause(Join(IdTexts(ids)))) && ok == deleteBy(query.value)
  {
    if ids == [] {
      return true, None;
    }
    var auctions := BuildCsl(IdTexts(ids));
    query := Some(IdInClause(auctions));
    ok := deleteBy(query.value);
  }

  /** findAllByIds: an empty list finds nothing, with no query; otherwise
      the rows whose id is in the list. */
  method FindAllByIds<R>(ids: seq<string>, findAllBySQL: string -> seq<R>) returns (found: seq<R>, query: Option<string>)
    ensures ids == [] ==> found == [] && query.None?
    ensures ids != [] ==> query == Some("SELECT * FROM auctions WHERE " + IdInClause(Join(ids))) && found == findAllBySQL(query.value)
  {
    if ids == [] {
      return [], None;
    }
    var auctions := BuildCsl(ids);
    query := Some("SELECT * FROM auctions WHERE " + IdInClause(auctions));
    found := findAllBySQL(query.value);
  }

  /** The id list of a query reads back as the ids it was built from. */
  lemma IdListRoundTrip(ids: seq<int>)
    requires ids != []
    requires forall k :: 0 <= k < |ids| ==> INT_MIN <= ids[k] <= INT_MAX
    ensures var items := Split(Join(IdTexts(ids)));
            |items| == |ids| && forall k :: 0 <= k < |ids| ==> ParseInt(Some(items[k])) == Some(ids[k])
  {
    var texts := IdTexts(ids);
    forall k | 0 <= k < |texts| ensures ',' !in texts[k] {
      IntToStringHasNoComma(ids[k]);
    }
    SplitJoin(texts);
    forall k | 0 <= k < |ids| ensures ParseInt(Some(texts[k])) == Some(ids[k]) {
      ParseDecimalOfIntToString(ids[k], INT_MIN, INT_MAX);
    }
  }

  // ---------------------------------------------------------------------
  // XML output

  /** A child element of <info>: a named element with optional contents,
      properties and an amount, or the seller's own element. */
  datatype XmlChild =
    | Node(tag: string, contents: Option<string>, properties: map<string, string>, amount: Option<Currency>)
    | SellerNode(seller: Seller)
  {
    function Name(): string
    {
      if Node? then tag else "seller"
    }
  }

  /** The order in which toXML adds its children. */
  const XML_ORDER: seq<string> := [
    "title", "seller", "start", "end", "bidcount", "insurance", "usprice",
    "currently", "shipping", "buynow", "buy_now_us", "minimum",
    "dutch", "reserve", "paypal", "fixed", "private", "location", "highbidder"]

  function BoolText(b: bool): string
  {
    if b then "true" else "false"
  }

  /** addStringChild: a child exactly when the string is set. */
  function StringChild(r: InfoRecord, name: string): Option<XmlChild>
  {
    if StringOf(r, name).Some? then Some(Node(name, StringOf(r, name), map[], None)) else None
  }

  /** addCurrencyChild: a child exactly when a non-null amount is set. */
  function CurrencyChild(r: InfoRecord, name: string, properties: map<string, string>): Option<XmlChild>
  {
    if MoneyOf(r, name).Some? then Some(Node(name, None, properties, MoneyOf(r, name))) else None
  }

  /** addBooleanChild: a child exactly when the flag is set. */
  function BooleanChild(r: InfoRecord, name: string, properties: map<string, string>): Option<XmlChild>
  {
    if FlagOf(r, name) then Some(Node(name, None, properties, None)) else None
  }

  /** A date child: its time in milliseconds, when the date is set. */
  function DateChild(r: InfoRecord, name: string): Option<XmlChild>
  {
    if Get(r, name).Time? then Some(Node(name, Some(IntToString(Get(r, name).d.millis)), map[], None)) else None
  }

  /** The child toXML writes for XML_ORDER[k], None when it writes none. */
  function ChildAt(r: InfoRecord, k: nat): (c: Option<XmlChild>)
    requires k < |XML_ORDER|
    ensures c.Some? ==> c.value.Name() == XML_ORDER[k]
  {
    var name := XML_ORDER[k];
    if k == 0 || k == 17 || k == 18 then StringChild(r, name)
    else if k == 1 then
      if r.seller.Some? && SellerNameOf(r.seller) != "(unknown)" then Some(SellerNode(r.seller.value)) else None
    else if k == 2 || k == 3 then DateChild(r, name)
    else if k == 4 then Some(Node(name, Some(IntToString(NumBids(r))), map[], None))
    else if k == 5 then CurrencyChild(r, name, map["optional" := BoolText(FlagOf(r, "insurance_optional"))])
    else if k == 6 then
      if MoneyOf(r, "currently").Some? && MoneyOf(r, "currently").value.kind != USDollar then CurrencyChild(r, name, map[]) else None
    else if k <= 11 then CurrencyChild(r, name, map[])
    else if k == 12 then BooleanChild(r, name, map["quantity" := IntToString(Quantity(r))])
    else if k == 13 then BooleanChild(r, name, map["met" := BoolText(FlagOf(r, "reserve_met"))])
    else if k == 15 then
      BooleanChild(r, name, if Quantity(r) != 1 then map["quantity" := IntToString(Quantity(r))] else map[])
    else BooleanChild(r, name, map[])
  }

  /** When toXML writes the child of each position: a string, date, amount
      or flag exactly when it is set; the seller exactly when one is held
      under a name other than "(unknown)"; the bid count always; the US
      price only beside a current price in another currency. */
  lemma ChildWrittenWhen(r: InfoRecord, k: nat)
    requires k < |XML_ORDER|
    ensures k == 0 || k == 17 || k == 18 ==> (ChildAt(r, k).Some? <==> StringOf(r, XML_ORDER[k]).Some?)
    ensures k == 1 ==> (ChildAt(r, k).Some? <==> r.seller.Some? && r.seller.value.name != "(unknown)")
    ensures k == 2 || k == 3 ==> (ChildAt(r, k).Some? <==> Get(r, XML_ORDER[k]).Time?)
    ensures k == 4 ==> ChildAt(r, k).Some?
    ensures k == 5 || 7 <= k <= 11 ==> (ChildAt(r, k).Some? <==> MoneyOf(r, XML_ORDER[k]).Some?)
    ensures k == 6 ==>
              (ChildAt(r, k).Some? <==>
                 MoneyOf(r, "currently").Some? && MoneyOf(r, "currently").value.kind != USDollar && MoneyOf(r, "usprice").Some?)
    ensures 12 <= k <= 16 ==> (ChildAt(r, k).Some? <==> FlagOf(r, XML_ORDER[k]))
  {
  }

  /** The properties toXML puts on the insurance, dutch, reserve and fixed
      children: whether insurance is optional, the quantity, whether the
      reserve is met, and a fixed-price quantity only when it is not 1. */
  lemma ChildProperties(r: InfoRecord, k: nat)
    requires k < |XML_ORDER| && ChildAt(r, k).Some? && k != 1
    ensures ChildAt(r, k).value.Node?
    ensures k == 5 ==> ChildAt(r, k).value.properties == map["optional" := BoolText(FlagOf(r, "insurance_optional"))]
    ensures k == 12 ==> ChildAt(r, k).value.properties == map["quantity" := IntToString(Quantity(r))]
    ensures k == 13 ==> ChildAt(r, k).value.properties == map["met" := BoolText(FlagOf(r, "reserve_met"))]
    ensures k == 15 ==> ("quantity" in ChildAt(r, k).value.properties <==> Quantity(r) != 1)
  {
  }

  /** Where the child for handleTag's tag i sits in XML_ORDER; -1 for the
      tags toXML never writes (content, feedback, percentage, sellerinfo). */
  function TagPosition(i: int): (k: int)
    requires 0 <= i < |INFO_TAGS|
    ensures k < |XML_ORDER|
    ensures 0 <= k ==> XML_ORDER[k] == INFO_TAGS[i]
  {
    match i
    case 0 => 0 case 1 => 1 case 2 => 18 case 3 => 4 case 4 => 2 case 5 => 3
    case 6 => 7 case 7 => 12 case 8 => 13 case 9 => 16 case 11 => 8 case 12 => 5
    case 13 => 9 case 14 => 6 case 15 => 15 case 16 => 11 case 17 => 14 case 18 => 17
    case 22 => 10
    case _ => -1
  }

  /** The children toXML has added once it has dealt with the first k
      names of XML_ORDER. */
  function ChildrenUpTo(r: InfoRecord, k: nat): seq<XmlChild>
    requires k <= |XML_ORDER|
  {
    if k == 0 then [] else ChildrenUpTo(r, k - 1) + Piece(r, k - 1)
  }

  /** The child for XML_ORDER[k] as a list of none or one. */
  function Piece(r: InfoRecord, k: nat): seq<XmlChild>
    requires k < |XML_ORDER|
  {
    if ChildAt(r, k).Some? then [ChildAt(r, k).value] else []
  }

  /** toXML's children. */
  function XmlChildren(r: InfoRecord): seq<XmlChild>
  {
    ChildrenUpTo(r, |XML_ORDER|)
  }

  function Names(cs: seq<XmlChild>): (names: seq<string>)
    ensures |names| == |cs|
    ensures forall k :: 0 <= k < |cs| ==> names[k] == cs[k].Name()
  {
    if cs == [] then [] else [cs[0].Name()] + Names(cs[1..])
  }

  lemma NamesAppend(a: seq<XmlChild>, b: seq<XmlChild>)
    ensures Names(a + b) == Names(a) + Names(b)
  {
  }

  /** The names among the first k of XML_ORDER that have a child, in order. */
  function EmittedUpTo(r: InfoRecord, k: nat): seq<string>
    requires k <= |XML_ORDER|
  {
    Emitted(Written(r), k)
  }

  /** Whether toXML writes the child of each position. */
  function Written(r: InfoRecord): (w: seq<bool>)
    ensures |w| == |XML_ORDER|
    ensures forall j :: 0 <= j < |XML_ORDER| ==> w[j] == ChildAt(r, j).Some?
  {
    seq(|XML_ORDER|, j requires 0 <= j < |XML_ORDER| => ChildAt(r, j).Some?)
  }

  /** The names among the first k of XML_ORDER whose flag in w is set, in order. */
  function Emitted(w: seq<bool>, k: nat): seq<string>
    requires k <= |w| == |XML_ORDER|
  {
    if k == 0 then [] else Emitted(w, k - 1) + (if w[k - 1] then [XML_ORDER[k - 1]] else [])
  }

  /** A name is among the first k emitted exactly when it sits at one of those
      positions and that position's flag is set. */
  lemma {:induction false} EmittedMembers(w: seq<bool>, k: nat, name: string)
    requires k <= |w| == |XML_ORDER|
    ensures name in Emitted(w, k) <==> exists j :: 0 <= j < k && XML_ORDER[j] == name && w[j]
  {
    if k > 0 {
      EmittedMembers(w, k - 1, name);
      var last := if w[k - 1] then [XML_ORDER[k - 1]] else [];
      assert Emitted(w, k) == Emitted(w, k - 1) + last;
      if name in last {
        assert XML_ORDER[k - 1] == name && w[k - 1];
      }
    }
  }

  /** A name is emitted among the first k exactly when it sits at one of
      those positions and that position's child is written. */
  lemma EmittedUpToMembers(r: InfoRecord, k: nat, name: string)
    requires k <= |XML_ORDER|
    ensures name in EmittedUpTo(r, k) <==> exists j :: 0 <= j < k && XML_ORDER[j] == name && ChildAt(r, j).Some?
  {
    EmittedMembers(Written(r), k, name);
  }

  /** The first k children are named by the first k emitted names, in order. */
  lemma {:induction false} ChildrenUpToNames(r: InfoRecord, k: nat)
    requires k <= |XML_ORDER|
    ensures Names(ChildrenUpTo(r, k)) == EmittedUpTo(r, k)
  {
    if k > 0 {
      ChildrenUpToNames(r, k - 1);
      NamesAppend(ChildrenUpTo(r, k - 1), Piece(r, k - 1));
      PieceNames(r, k - 1);
    }
  }

  lemma PieceNames(r: InfoRecord, k: nat)
    requires k < |XML_ORDER|
    ensures Names(Piece(r, k)) == if ChildAt(r, k).Some? then [XML_ORDER[k]] else []
  {
  }

  /** Each of the first k children is the child of one of the first k positions. */
  lemma {:induction false} ChildrenUpToAreChildren(r: InfoRecord, k: nat, c: XmlChild)
    requires k <= |XML_ORDER|
    ensures c in ChildrenUpTo(r, k) ==> exists j :: 0 <= j < k && ChildAt(r, j) == Some(c)
  {
    if k > 0 {
      ChildrenUpToAreChildren(r, k - 1, c);
      if c in Piece(r, k - 1) {
        assert ChildAt(r, k - 1) == Some(c);
      }
    }
  }

  /** toXML writes, in XML_ORDER, exactly the children ChildAt gives: a
      name is written exactly when its position has a child, and every
      child written is the child of its position. */
  lemma XmlChildrenShape(r: InfoRecord, name: string, c: XmlChild)
    ensures Names(XmlChildren(r)) == EmittedUpTo(r, |XML_ORDER|)
    ensures name in Names(XmlChildren(r)) <==> exists j :: 0 <= j < |XML_ORDER| && XML_ORDER[j] == name && ChildAt(r, j).Some?
    ensures c in XmlChildren(r) ==> exists j :: 0 <= j < |XML_ORDER| && ChildAt(r, j) == Some(c)
  {
    ChildrenUpToNames(r, |XML_ORDER|);
    EmittedUpToMembers(r, |XML_ORDER|, name);
    ChildrenUpToAreChildren(r, |XML_ORDER|, c);
  }

  /** The bid count is written whatever the record holds. */
  lemma BidCountAlwaysWritten(r: InfoRecord)
    ensures "bidcount" in Names(XmlChildren(r))
  {
    assert ChildAt(r, 4).Some? && XML_ORDER[4] == "bidcount";
    XmlChildrenShape(r, "bidcount", Node("bidcount", None, map[], None));
  }

  // ---------------------------------------------------------------------
  // Reading the output back

  /** XMLElement keeps property names upper-cased: the three names toXML
      writes, as handleTag looks them up. */
  function ReadProperties(p: map<string, string>): map<string, string>
  {
    (if "quantity" in p then map["QUANTITY" := p["quantity"]] else map[])
    + (if "met" in p then map["MET" := p["met"]] else map[])
    + (if "optional" in p then map["OPTIONAL" := p["optional"]] else map[])
  }

  /** The element handleTag sees when a written child is parsed again; the
      seller's element and an amount's CURRENCY/PRICE pair parse back to
      what was written. */
  function ReadBack(c: XmlChild): Element
  {
    match c
    case Node(_, contents, properties, amount) =>
      Element(contents, contents, ReadProperties(properties), false, BLANK_SELLER,
              if amount.Some? then amount.value else NO_VALUE)
    case SellerNode(s) => Element(None, None, map[], true, s, NO_VALUE)
  }

  /** Start and end dates (Java longs) are read back as the same date. */
  lemma DateChildRoundTrip(i: int, r: InfoRecord, r0: InfoRecord, svc: SellerServices)
    requires i == 4 || i == 5
    requires Get(r, INFO_TAGS[i]).Time? && LONG_MIN <= Get(r, INFO_TAGS[i]).d.millis <= LONG_MAX
    ensures ChildAt(r, TagPosition(i)).Some?
    ensures TagEffect(i, ReadBack(ChildAt(r, TagPosition(i)).value), r0, svc) == Done(r0.Put(INFO_TAGS[i], Get(r, INFO_TAGS[i])))
  {
    ParseDecimalOfIntToString(Get(r, INFO_TAGS[i]).d.millis, LONG_MIN, LONG_MAX);
  }

  /** The bid count (a Java int) is read back as the same count. */
  lemma BidCountChildRoundTrip(r: InfoRecord, r0: InfoRecord, svc: SellerServices)
    requires INT_MIN <= NumBids(r) <= INT_MAX
    ensures ChildAt(r, TagPosition(3)).Some?
    ensures var out := TagEffect(3, ReadBack(ChildAt(r, TagPosition(3)).value), r0, svc);
            out == Done(r0.Put("bidcount", Int(NumBids(r)))) && NumBids(out.record) == NumBids(r)
  {
    ParseDecimalOfIntToString(NumBids(r), INT_MIN, INT_MAX);
  }

  /** A dutch or fixed-price child is read back with the same quantity; the
      fixed child leaves out a quantity of 1, which reads back as 1. */
  lemma QuantityChildRoundTrip(i: int, r: InfoRecord, r0: InfoRecord, svc: SellerServices)
    requires i == 7 || i == 15
    requires FlagOf(r, INFO_TAGS[i]) && INT_MIN <= Quantity(r) <= INT_MAX
    ensures ChildAt(r, TagPosition(i)).Some?
    ensures var out := TagEffect(i, ReadBack(ChildAt(r, TagPosition(i)).value), r0, svc);
            out.ok && FlagOf(out.record, INFO_TAGS[i]) && Quantity(out.record) == Quantity(r)
  {
    var written := i == 7 || Quantity(r) != 1;
    QuantityChild(i, r);
    ReadBackQuantity(INFO_TAGS[i], Quantity(r), written);
    QuantityTagWith(i, r0, svc, Quantity(r), written);
  }

  lemma QuantityChild(i: int, r: InfoRecord)
    requires i == 7 || i == 15
    requires FlagOf(r, INFO_TAGS[i])
    ensures var written := i == 7 || Quantity(r) != 1;
            ChildAt(r, TagPosition(i))
            == Some(Node(INFO_TAGS[i], None, if written then map["quantity" := IntToString(Quantity(r))] else map[], None))
  {
  }

  lemma ReadBackQuantity(name: string, q: int, written: bool)
    ensures ReadBack(Node(name, None, if written then map["quantity" := IntToString(q)] else map[], None))
            == Element(None, None, if written then map["QUANTITY" := IntToString(q)] else map[], false, BLANK_SELLER, NO_VALUE)
  {
    if written {
      assert ReadProperties(map["quantity" := IntToString(q)]) == map["QUANTITY" := IntToString(q)];
    } else {
      assert ReadProperties(map[]) == map[];
    }
  }

  lemma QuantityTagWith(i: int, r0: InfoRecord, svc: SellerServices, q: int, written: bool)
    requires i == 7 || i == 15
    requires INT_MIN <= q <= INT_MAX && (!written ==> q == 1)
    ensures var el := Element(None, None, if written then map["QUANTITY" := IntToString(q)] else map[], false, BLANK_SELLER, NO_VALUE);
            var out := TagEffect(i, el, r0, svc);
            out.ok && FlagOf(out.record, INFO_TAGS[i]) && Quantity(out.record) == q
  {
    ParseDecimalOfIntToString(q, INT_MIN, INT_MAX);
    var el := Element(None, None, if written then map["QUANTITY" := IntToString(q)] else map[], false, BLANK_SELLER, NO_VALUE);
    QuantityFromTag(i, el, r0, svc);
  }

  /** A reserve child is read back with the same reserve-met flag. */
  lemma ReserveChildRoundTrip(r: InfoRecord, r0: InfoRecord, svc: SellerServices)
    requires FlagOf(r, "reserve")
    ensures ChildAt(r, TagPosition(8)).Some?
    ensures var out := TagEffect(8, ReadBack(ChildAt(r, TagPosition(8)).value), r0, svc);
            out.ok && FlagOf(out.record, "reserve") && FlagOf(out.record, "reserve_met") == FlagOf(r, "reserve_met")
  {
    var met := BoolText(FlagOf(r, "reserve_met"));
    ReserveChild(r);
    ReadBackMet(met);
    ReserveTagWithMet(r0, svc, met);
  }

  lemma ReserveChild(r: InfoRecord)
    requires FlagOf(r, "reserve")
    ensures ChildAt(r, TagPosition(8)) == Some(Node("reserve", None, map["met" := BoolText(FlagOf(r, "reserve_met"))], None))
  {
  }

  lemma ReadBackMet(met: string)
    ensures ReadBack(Node("reserve", None, map["met" := met], None)) == Element(None, None, map["MET" := met], false, BLANK_SELLER, NO_VALUE)
  {
    assert ReadProperties(map["met" := met]) == map["MET" := met];
  }

  lemma ReserveTagWithMet(r0: InfoRecord, svc: SellerServices, met: string)
    ensures var out := TagEffect(8, Element(None, None, map["MET" := met], false, BLANK_SELLER, NO_VALUE), r0, svc);
            out.ok && FlagOf(out.record, "reserve") && (FlagOf(out.record, "reserve_met") <==> met == "true")
  {
  }

  /** An insurance child is read back with the same amount and optional flag. */
  lemma InsuranceChildRoundTrip(r: InfoRecord, r0: InfoRecord, svc: SellerServices)
    requires MoneyOf(r, "insurance").Some?
    ensures ChildAt(r, TagPosition(12)).Some?
    ensures var out := TagEffect(12, ReadBack(ChildAt(r, TagPosition(12)).value), r0, svc);
            out.ok && MoneyOf(out.record, "insurance") == MoneyOf(r, "insurance")
            && FlagOf(out.record, "insurance_optional") == FlagOf(r, "insurance_optional")
  {
    var optional := BoolText(FlagOf(r, "insurance_optional"));
    InsuranceChild(r);
    var el := ReadBack(ChildAt(r, TagPosition(12)).value);
    assert ReadProperties(map["optional" := optional]) == map["OPTIONAL" := optional];
    assert el.Property("OPTIONAL") == Some(optional);
    InsuranceOptionalFromTag(el, r0, svc);
  }

  lemma InsuranceChild(r: InfoRecord)
    requires MoneyOf(r, "insurance").Some?
    ensures ChildAt(r, TagPosition(12))
            == Some(Node("insurance", None, map["optional" := BoolText(FlagOf(r, "insurance_optional"))], MoneyOf(r, "insurance")))
  {
  }

  /** Every written amount is read back as the same amount. */
  lemma MonetaryChildRoundTrip(i: int, r: InfoRecord, r0: InfoRecord, svc: SellerServices)
    requires IsMonetaryTag(i) && ChildAt(r, TagPosition(i)).Some?
    ensures var out := TagEffect(i, ReadBack(ChildAt(r, TagPosition(i)).value), r0, svc);
            out.ok && MoneyOf(out.record, INFO_TAGS[i]) == MoneyOf(r, INFO_TAGS[i])
  {
    MonetaryChildAmount(i, r);
    MonetaryTagStoresAmount(i, ReadBack(ChildAt(r, TagPosition(i)).value), r0, svc);
  }

  lemma MonetaryChildAmount(i: int, r: InfoRecord)
    requires IsMonetaryTag(i) && ChildAt(r, TagPosition(i)).Some?
    ensures MoneyOf(r, INFO_TAGS[i]).Some?
    ensures ReadBack(ChildAt(r, TagPosition(i)).value).amount == MoneyOf(r, INFO_TAGS[i]).value
  {
  }

  /** Title, high bidder and location are read back as the same text. */
  lemma StringChildRoundTrip(i: int, r: InfoRecord, r0: InfoRecord, svc: SellerServices)
    requires i == 0 || i == 2 || i == 18
    requires ChildAt(r, TagPosition(i)).Some?
    ensures TagEffect(i, ReadBack(ChildAt(r, TagPosition(i)).value), r0, svc) == Done(r0.Put(INFO_TAGS[i], Get(r, INFO_TAGS[i])))
  {
  }

  /** The seller child is read back as the same seller. */
  lemma SellerChildRoundTrip(r: InfoRecord, r0: InfoRecord, svc: SellerServices)
    requires ChildAt(r, TagPosition(1)).Some?
    ensures TagEffect(1, ReadBack(ChildAt(r, TagPosition(1)).value), r0, svc) == Done(r0.(seller := r.seller))
  {
  }

  /** toXML's step for XML_ORDER[k]: one more name dealt with. */
  lemma AddStep(r: InfoRecord, k: nat)
    requires k < |XML_ORDER|
    ensures ChildrenUpTo(r, k + 1) == ChildrenUpTo(r, k) + Piece(r, k)
  {
  }

  // ---------------------------------------------------------------------
  // The object

  /** An AuctionInfo: its attribute store, seller, default currency and the
      thumbnail URL set for it. */
  class AuctionInfo {
    var attributes: map<string, Value>
    var seller: Option<Seller>
    var defaultCurrency: Currency
    var potentialThumbnail: Option<string>

    /** The record the tag handling, the getters and toXML work on. */
    function Snapshot(): InfoRecord
      reads this
    {
      InfoRecord(attributes, seller, defaultCurrency)
    }

    constructor ()
      ensures Snapshot() == InfoRecord(map[], None, NO_VALUE)
      ensures potentialThumbnail.None?
    {
      attributes := map[];
      seller := None;
      defaultCurrency := NO_VALUE;
      potentialThumbnail := None;
    }

    /** handleTag: writes one XML tag into the record; ok is false where
        Java throws NumberFormatException. */
    method HandleTag(i: int, el: Element, svc: SellerServices) returns (ok: bool)
      modifies this
      ensures ok == TagEffect(i, el, old(Snapshot()), svc).ok
      ensures Snapshot() == TagEffect(i, el, old(Snapshot()), svc).record
      ensures potentialThumbnail == old(potentialThumbnail)
    {
      ok := true;
      if i == 0 {
        attributes := attributes[INFO_TAGS[i] := StrValue(el.decoded)];
      } else if i == 1 {
        if !el.hasNameChild {
          ok := SetSellerName(el.contents, svc);
        } else {
          seller := Some(el.asSeller);
        }
      } else if i == 2 || i == 18 {
        attributes := attributes[INFO_TAGS[i] := StrValue(el.contents)];
      } else if i == 3 {
        var n := ParseInt(el.contents);
        if n.None? {
          return false;
        }
        attributes := attributes[INFO_TAGS[i] := Int(n.value)];
      } else if i == 4 || i == 5 {
        var n := ParseLong(el.contents);
        if n.None? {
          return false;
        }
        attributes := attributes[INFO_TAGS[i] := Time(Date(n.value))];
      } else if IsMonetaryTag(i) {
        var amount := el.amount;
        attributes := attributes[INFO_TAGS[i] := Money(amount, i != 22 && i != 14)];
        if i == 13 {
          defaultCurrency := amount;
        } else if i == 6 {
          if amount.kind == USDollar {
            attributes := attributes["us_cur" := Money(amount, false)];
            attributes := attributes["currency" := Str(amount.fullName)];
          }
          defaultCurrency := amount;
        } else if i == 12 {
          var optional := el.Property("OPTIONAL");
          attributes := attributes["insurance_optional" := Flag(optional.None? || optional == Some("true"))];
        }
      } else if IsFlagTag(i) {
        attributes := attributes[INFO_TAGS[i] := Flag(true)];
        if i == 7 || i == 15 {
          var quant := el.Property("QUANTITY");
          if quant.None? {
            attributes := attributes["quantity" := Int(1)];
          } else {
            var n := ParseInt(quant);
            if n.None? {
              return false;
            }
            attributes := attributes["quantity" := Int(n.value)];
          }
        } else if i == 8 {
          attributes := attributes["reserve_met" := Flag(el.Property("MET") == Some("true"))];
        }
      } else if i == 19 {
        var feedback := el.contents;
        if seller.None? {
          seller := Some(BLANK_SELLER);
        }
        if feedback.Some? {
          var n := ParseInt(feedback);
          if n.None? {
            return false;
          }
          seller := Some(seller.value.(feedback := n.value));
        }
      } else if i == 20 {
        if seller.None? {
          seller := Some(BLANK_SELLER);
        }
        seller := Some(seller.value.(positivePercentage := el.contents));
      } else if i == 21 {
        seller := Some(el.asSeller);
      }
    }

    /** setSellerName: ignores a null or empty name; otherwise makes or
        remakes the seller and stores its id, saving it first when it has none. */
    method SetSellerName(name: Option<string>, svc: SellerServices) returns (ok: bool)
      modifies this
      ensures ok == SellerNameEffect(name, old(Snapshot()), svc).ok
      ensures Snapshot() == SellerNameEffect(name, old(Snapshot()), svc).record
      ensures potentialThumbnail == old(potentialThumbnail)
    {
      if name.None? || |name.value| == 0 {
        return true;
      }
      if seller.None? {
        seller := Some(svc.make(Trim(name.value)));
      } else {
        seller := Some(svc.remake(name.value, seller.value));
      }
      var sellerId := seller.value.id;
      if sellerId.None? || sellerId == Some(0) {
        var rawId := svc.save(seller.value);
        if rawId.Some? && |rawId.value| != 0 {
          var n := ParseInt(rawId);
          if n.None? {
            return false;
          }
          sellerId := n;
        }
      }
      attributes := attributes["seller_id" := IdValue(sellerId)];
      ok := true;
    }

    /** setEnd: stores the end date, or null for null and FAR_FUTURE. */
    method SetEnd(end: Option<Date>)
      modifies this
      ensures attributes == old(attributes)["end" := DateValue(EndValue(end))]
      ensures seller == old(seller) && defaultCurrency == old(defaultCurrency)
      ensures potentialThumbnail == old(potentialThumbnail)
    {
      var stored := end;
      if stored.None? || stored == Some(FAR_FUTURE) {
        stored := None;
      }
      attributes := attributes["end" := DateValue(stored)];
    }

    /** setThumbnailURL: clears noThumbnail and remembers the URL. */
    method SetThumbnailURL(url: Option<string>)
      modifies this
      ensures attributes == old(attributes)["noThumbnail" := Flag(false)]
      ensures potentialThumbnail == url
      ensures seller == old(seller) && defaultCurrency == old(defaultCurrency)
    {
      attributes := attributes["noThumbnail" := Flag(false)];
      potentialThumbnail := url;
    }

    /** getThumbnailURL: the set URL, otherwise the URL for the identifier. */
    function ThumbnailURL(): (url: string)
      reads this
      ensures potentialThumbnail.Some? ==> url == potentialThumbnail.value
      ensures potentialThumbnail.None? ==>
                |url| == |THUMBNAIL_HOST| + |IdentifierText(Snapshot())| + 4 && url[..|THUMBNAIL_HOST|] == THUMBNAIL_HOST
                && url[|THUMBNAIL_HOST|..|url| - 4] == IdentifierText(Snapshot()) && url[|url| - 4..] == ".jpg"
    {
      ThumbnailIdRoundTrip(IdentifierText(Snapshot()));
      if potentialThumbnail.Some? then potentialThumbnail.value else ThumbnailById(IdentifierText(Snapshot()))
    }

    /** getAlternateSiteThumbnail: the URL for the identifier with "6464"
        appended, never the plain identifier's URL. */
    function AlternateSiteThumbnail(): (url: string)
      reads this
      ensures |url| == |THUMBNAIL_HOST| + |IdentifierText(Snapshot())| + 8
      ensures url[|THUMBNAIL_HOST|..|url| - 4] == IdentifierText(Snapshot()) + "6464"
      ensures url != ThumbnailById(IdentifierText(Snapshot()))
      ensures url[..|THUMBNAIL_HOST|] == THUMBNAIL_HOST && url[|url| - 4..] == ".jpg"
    {
      ThumbnailIdRoundTrip(IdentifierText(Snapshot()) + "6464");
      ThumbnailById(IdentifierText(Snapshot()) + "6464")
    }

    /** refreshSeller: looks the seller up by the stored id when there is none. */
    method RefreshSeller(find: string -> Option<Seller>)
      modifies this`seller
      ensures seller == RefreshedSeller(old(Snapshot()), find)
    {
      if seller.None? {
        var id := SellerIdText(Snapshot());
        if id.Some? {
          seller := find(id.value);
        }
      }
    }

    method GetSeller(find: string -> Option<Seller>) returns (s: Option<Seller>)
      modifies this`seller
      ensures seller == RefreshedSeller(old(Snapshot()), find)
      ensures s == seller
    {
      RefreshSeller(find);
      s := seller;
    }

    method GetSellerName(find: string -> Option<Seller>) returns (name: string)
      modifies this`seller
      ensures seller == RefreshedSeller(old(Snapshot()), find)
      ensures name == SellerNameOf(seller)
    {
      RefreshSeller(find);
      name := if seller.Some? then seller.value.name else "(unknown)";
    }

    method GetPositiveFeedbackPercentage(find: string -> Option<Seller>) returns (percentage: Option<string>)
      modifies this`seller
      ensures seller == RefreshedSeller(old(Snapshot()), find)
      ensures percentage == PercentageOf(seller)
    {
      RefreshSeller(find);
      percentage := if seller.Some? then seller.value.positivePercentage else Some("n/a");
    }

    method GetFeedbackScore(find: string -> Option<Seller>) returns (score: int)
      modifies this`seller
      ensures seller == RefreshedSeller(old(Snapshot()), find)
      ensures score == FeedbackScoreOf(seller)
    {
      RefreshSeller(find);
      score := if seller.Some? then seller.value.feedback else 0;
    }

    /** toXML: the <info> children, added one at a time; asking for the
        seller's name first refreshes the seller. */
    method ToXml(find: string -> Option<Seller>) returns (children: seq<XmlChild>)
      modifies this`seller
      ensures seller == RefreshedSeller(old(Snapshot()), find)
      ensures children == XmlChildren(Snapshot())
    {
      RefreshSeller(find);
      var r := Snapshot();
      children := [];
      AddStep(r, 0);
      children := children + Piece(r, 0);  // title
      AddStep(r, 1);
      children := children + Piece(r, 1);  // seller
      AddStep(r, 2);
      children := children + Piece(r, 2);  // start
      AddStep(r, 3);
      children := children + Piece(r, 3);  // end
      AddStep(r, 4);
      children := children + Piece(r, 4);  // bidcount
      AddStep(r, 5);
      children := children + Piece(r, 5);  // insurance
      AddStep(r, 6);
      children := children + Piece(r, 6);  // usprice
      AddStep(r, 7);
      children := children + Piece(r, 7);  // currently
      AddStep(r, 8);
      children := children + Piece(r, 8);  // shipping
      AddStep(r, 9);
      children := children + Piece(r, 9);  // buynow
      AddStep(r, 10);
      children := children + Piece(r, 10);  // buy_now_us
      AddStep(r, 11);
      children := children + Piece(r, 11);  // minimum
      AddStep(r, 12);
      children := children + Piece(r, 12);  // dutch
      AddStep(r, 13);
      children := children + Piece(r, 13);  // reserve
      AddStep(r, 14);
      children := children + Piece(r, 14);  // paypal
      AddStep(r, 15);
      children := children + Piece(r, 15);  // fixed
      AddStep(r, 16);
      children := children + Piece(r, 16);  // private
      AddStep(r, 17);
      children := children + Piece(r, 17);  // location
      AddStep(r, 18);
      children := children + Piece(r, 18);  // highbidder
    }
  }
}
