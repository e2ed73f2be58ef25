# JBidWatcher auction table and auction record, in Dafny

This project models two parts of JBidWatcher, an eBay auction sniping client.

The first is the auction table adapter, `auctionTableModel` (module `AuctionTable`, file `auction_table.dfy`):
- the multi-column row comparator;
- the rule that picks a thumbnail's scaled size;
- which amount the snipe/max column is about, and the texts of the bid, snipe and total cells;
- the status icon as an ordered list of overlays;
- the sort class of a column and the dummy value of a missing row;
- the per-column cell values, including the thumbnail icon cache;
- inserting and deleting rows of the displayed list.

The second is `AuctionInfo` (module `Auction`, file `auction_info.dfy`), the record of one auction:
- `handleTag`, which writes one parsed XML tag into the record's attribute store;
- `toXML`, which decides which child elements are written and in which order, and what reading them back gives;
- the seller fallbacks and the seller refresh;
- the end-date normalisation and the thumbnail URLs;
- the comma-separated id lists used by `deleteAll` and `findAllByIds`.

Two support modules hold the shared values:
- `Domain` (`domain.dfy`): an opaque currency, a date, a seller.
- `JavaText` (`java_text.dfy`): `Integer.toString`, `Integer.parseInt`, `Long.parseLong` and `String.trim` on decimal text.

The code that changes state is modelled as imperative Dafny:
- `AuctionTableModel` is a class over its row list and its icon cache.
- `AuctionInfo` is a class over its attribute map, its seller, its default currency and its thumbnail URL.
- The comparator, `scaleImage`, `getEntryIcon` and `buildCSL` are methods.

Each of these methods is proved equal to a specification function, and the properties of that function are proved as lemmas. Java exceptions are modelled as a result flag (`ok == false`) together with the part of the update that happened before the throw.

## Model

| member | source | states |
|---|---|---|
| AuctionTable.Compare | src/com/jbidwatcher/ui/auctionTableModel.java:504-524 | the loop's result is the lexicographic comparison of the rows over the sort keys; an empty key list gives 0 |
| AuctionTable.LexCompareIsFirstDifference | src/com/jbidwatcher/ui/auctionTableModel.java:507-521 | the comparison is 0 exactly when every key compares equal; otherwise it is the signed difference of the first key that differs |
| AuctionTable.LexCompareIgnoresLaterColumns | src/com/jbidwatcher/ui/auctionTableModel.java:507-521 | keys after the first differing one are never consulted |
| AuctionTable.LexCompareAntisymmetric | src/com/jbidwatcher/ui/auctionTableModel.java:504-524 | swapping the two rows negates the result whenever every column comparison is antisymmetric |
| AuctionTable.SortByColumnClass | src/com/jbidwatcher/ui/auctionTableModel.java:51-63 | Integer exactly for the status, thumbnail, feedback and bid-count columns; Currency exactly for the money columns; Date exactly for the time-left and end-date columns; otherwise String |
| AuctionTable.DummyValue | src/com/jbidwatcher/ui/auctionTableModel.java:80-113 | a missing row shows null in the whole-row column, no value in the money columns, the far-future date in the date columns, the blank icon in the status and thumbnail columns, and "" elsewhere |
| AuctionTable.TargetSize | src/com/jbidwatcher/ui/auctionTableModel.java:481-496 | an image within 64x64 gets (-1, -1); a larger one gets exactly one side 64 and the other -1, with the height 64 exactly when the height is at least the width; a side reported as -1 passes through |
| AuctionTable.ScaleImage | src/com/jbidwatcher/ui/auctionTableModel.java:477-498 | the step-by-step update of h and w ends with TargetSize of the image |
| AuctionTable.FileSchemeIsStripped | src/com/jbidwatcher/ui/auctionTableModel.java:418 | removing "file:" changes every path that starts with it |
| AuctionTable.FileThumbnailNeverCached | src/com/jbidwatcher/ui/auctionTableModel.java:414-423 | as written, a "file:" thumbnail is never a key of the cache after its lookup, and the lookup refills the same cache every time |
| AuctionTable.ThumbnailCellAsWritten | src/com/jbidwatcher/ui/auctionTableModel.java:414-423 | as written: no thumbnail shows the blank icon; a thumbnail found in the cache shows the cached icon; a miss scales the "file:"-stripped path and stores it under that stripped path |
| AuctionTable.ThumbnailCell | src/com/jbidwatcher/ui/auctionTableModel.java:414-423 | corrected thumbnail cell: no thumbnail shows the blank icon; otherwise the cell shows the cache's icon for the thumbnail, and a miss adds the scaled image under that key |
| AuctionTable.ThumbnailCachedAfterFirstUse | src/com/jbidwatcher/ui/auctionTableModel.java:414-423 | with the corrected key, a second lookup shows the same icon and leaves the cache unchanged |
| AuctionTable.ShownBelowIsOrderedFilter | src/com/jbidwatcher/ui/auctionTableModel.java:121-161 | the reference overlay list holds exactly the overlays the entry shows, in combining order |
| AuctionTable.EntryIcon | src/com/jbidwatcher/ui/auctionTableModel.java:121-161 | getEntryIcon's sequence of combinations is the entry's status icon: exactly the overlays it shows, in the fixed order |
| AuctionTable.StatusIconMarksExclusive | src/com/jbidwatcher/ui/auctionTableModel.java:121-161 | the status icon never carries both reserve overlays, nor both the winning and the green mark |
| AuctionTable.StatusIconIsUnique | src/com/jbidwatcher/ui/auctionTableModel.java:121-161 | two overlay lists that are both the entry's status icon are equal |
| AuctionTable.GetMaxOrSnipe | src/com/jbidwatcher/ui/auctionTableModel.java:274-285 | snipe if sniped, else bid if bid on, else the cancelled snipe of a completed auction, else no value |
| AuctionTable.FormatBid | src/com/jbidwatcher/ui/auctionTableModel.java:303-306 | the error note, then the bid amount, with no multisnipe mark and no parentheses |
| AuctionTable.FormatSnipe | src/com/jbidwatcher/ui/auctionTableModel.java:308-325 | the error note, then "Multi: " exactly when a multisnipe exists, then the amount, in parentheses exactly when the snipe is invalid |
| AuctionTable.FormatSnipeAndBid | src/com/jbidwatcher/ui/auctionTableModel.java:287-301 | same priority as getMaxOrSnipe; "*" as error note exactly when an error page exists; "--" when there is no bid |
| AuctionTable.SnipeAndBidShowsMaxOrSnipe | src/com/jbidwatcher/ui/auctionTableModel.java:274-301 | the snipe/max text shows the very amount getMaxOrSnipe returns, in parentheses exactly when it will not be bid; "--" exactly with no value |
| AuctionTable.FormatTotalSnipe | src/com/jbidwatcher/ui/auctionTableModel.java:327-358 | "--" unless sniped with shipping and snipe set and their sum defined; otherwise the sum decorated as formatSnipe decorates |
| AuctionTable.CellValueOf | src/com/jbidwatcher/ui/auctionTableModel.java:374-470 | a present entry's cell in a column other than the whole row, status and thumbnail is never an icon or a row, and is null exactly in the location column of an entry without a location |
| AuctionTable.CurBidCell | src/com/jbidwatcher/ui/auctionTableModel.java:375-381 | the CUR_BID text is the current price, then " (FP)" or " (FP x n)" for a fixed-price listing of quantity n > 1, else the bidder count in parentheses |
| AuctionTable.DateCells | src/com/jbidwatcher/ui/auctionTableModel.java:393-411 | "N/A" in both date columns without a real end date; END_DATE otherwise shows the formatted end date; TIME_LEFT shows the time left, or the end date (red while not complete) once the auction shows as ended |
| AuctionTable.NeverBidCells | src/com/jbidwatcher/ui/auctionTableModel.java:428-462 | buy-now and shipping show "--" exactly with no amount, else the amount; bidder and positive feedback show "--" when missing or empty; the current total is an amount exactly when shipping is set and the sum is defined, else "--" |
| AuctionTable.TextCells | src/com/jbidwatcher/ui/auctionTableModel.java:374-427 | id, title (decoded), seller and location show the entry's field, a null location as null; a null comment shows as "" |
| AuctionTable.OtherCells | src/com/jbidwatcher/ui/auctionTableModel.java:440-470 | the price, feedback score, snipe total and custom columns show their values; an unassigned column shows "" |
| AuctionTable.MaxColumnAgreesWithSnipeOrMax | src/com/jbidwatcher/ui/auctionTableModel.java:382-383 | with a bid and no snipe, the MAX cell equals the SNIPE_OR_MAX cell |
| AuctionTable.SnipeColumnAgreesWithSnipeOrMax | src/com/jbidwatcher/ui/auctionTableModel.java:382-392 | unless a bid outranks it, the SNIPE cell equals the SNIPE_OR_MAX cell |
| AuctionTable.BidCountColumnReadsBack | src/com/jbidwatcher/ui/auctionTableModel.java:442-444 | the BIDCOUNT cell is "(FP)" exactly for a negative count, and otherwise parses back to the count |
| AuctionTable.AuctionTableModel.constructor | src/com/jbidwatcher/ui/auctionTableModel.java:500-502 | the model shows the given list and starts with an empty icon cache |
| AuctionTable.AuctionTableModel.Insert | src/com/jbidwatcher/ui/auctionTableModel.java:38-41 | appends the entry and returns the new last index |
| AuctionTable.AuctionTableModel.Delete | src/com/jbidwatcher/ui/auctionTableModel.java:34-36 | removes exactly the given row and keeps the others in order |
| AuctionTable.AuctionTableModel.GetValueAt | src/com/jbidwatcher/ui/auctionTableModel.java:362-475 | out of range: the column's dummy value; whole-row column: the entry; a null row is removed and shows "*"; status: the entry's status icon; thumbnail: the corrected cache lookup and fill of ThumbnailCell; other columns: the column's cell value |
| Auction.TagWritesOnlyItsKeys | src/com/jbidwatcher/auction/AuctionInfo.java:49-133 | handleTag(i) writes no attribute outside the keys of tag i, whether it succeeds or throws |
| Auction.TagEffect | src/com/jbidwatcher/auction/AuctionInfo.java:49-133 | only the seller tags (1, 19, 20, 21) change the seller; only the current and buy-now prices change the default currency; only the tags that parse a number can throw |
| Auction.SellerNameEffect | src/com/jbidwatcher/auction/AuctionInfo.java:327-341 | a null or empty name changes nothing; a name always leaves a seller held; the default currency never changes; a throw leaves the attributes as they were |
| Auction.UnhandledTagChangesNothing | src/com/jbidwatcher/auction/AuctionInfo.java:128-131 | an index with no case, the content tag among them, leaves the record unchanged |
| Auction.QuantityFromTag | src/com/jbidwatcher/auction/AuctionInfo.java:98-110 | the dutch and fixed tags set their flag, and set the quantity from QUANTITY, or to 1 when it is absent; a QUANTITY that does not parse throws after the flag is set |
| Auction.ReserveMetFromTag | src/com/jbidwatcher/auction/AuctionInfo.java:103-112 | the reserve tag sets "reserve", and sets "reserve_met" true exactly when MET is "true" |
| Auction.InsuranceOptionalFromTag | src/com/jbidwatcher/auction/AuctionInfo.java:79-94 | the insurance tag stores the amount, and stores insurance_optional as true exactly when OPTIONAL is absent or "true", else false |
| Auction.MonetaryTagStoresAmount | src/com/jbidwatcher/auction/AuctionInfo.java:72-96 | monetary tags store the element's amount; the amount is marked as in the default currency exactly for tags other than 14 and 22; the buy-now and current price become the default currency |
| Auction.CurrentlyInDollars | src/com/jbidwatcher/auction/AuctionInfo.java:85-90 | a current price in US dollars is also stored as "us_cur" with its currency name; otherwise both keys are untouched |
| Auction.BidCountFromTag | src/com/jbidwatcher/auction/AuctionInfo.java:65-67 | a bid count that parses is stored; one that does not throws and changes nothing |
| Auction.FeedbackFromTag | src/com/jbidwatcher/auction/AuctionInfo.java:115-119 | the feedback tag makes the held seller, or a blank one when there is none, the record's seller; only its score changes, and only when the contents parse; empty contents keep the seller as it is; a parse failure throws after the blank seller is attached |
| Auction.EmptySellerNameChangesNothing | src/com/jbidwatcher/auction/AuctionInfo.java:327-328 | setSellerName with a null or empty name changes nothing |
| Auction.SellerNameStoresId | src/com/jbidwatcher/auction/AuctionInfo.java:327-341 | a name makes (or remakes) the seller; its own non-zero id is stored; an unset or zero id is replaced by the id saveDB returns, or stored as it is when saveDB returns nothing; the call throws exactly when that returned id does not parse, and then leaves the attributes as they were |
| Auction.RefreshedSeller | src/com/jbidwatcher/auction/AuctionInfo.java:303-308 | a seller already held is kept; with no seller, a stored id is looked up, and with no id there is still none |
| Auction.RefreshSellerIdempotent | src/com/jbidwatcher/auction/AuctionInfo.java:303-308 | refreshing twice gives what refreshing once gives |
| Auction.SellerNameOf | src/com/jbidwatcher/auction/AuctionInfo.java:298-301 | the seller's name, "(unknown)" without a seller |
| Auction.PercentageOf | src/com/jbidwatcher/auction/AuctionInfo.java:315-319 | the seller's positive percentage, "n/a" without a seller |
| Auction.FeedbackScoreOf | src/com/jbidwatcher/auction/AuctionInfo.java:321-325 | the seller's feedback score, 0 without a seller |
| Auction.EndValue | src/com/jbidwatcher/auction/AuctionInfo.java:361-366 | the stored end is null exactly for null and FAR_FUTURE, and otherwise the given date |
| Auction.EndValueIdempotent | src/com/jbidwatcher/auction/AuctionInfo.java:361-366 | normalising an already normalised end date changes nothing |
| Auction.ThumbnailById | src/com/jbidwatcher/auction/AuctionInfo.java:388-390 | the URL is the eBay thumbnail host, then the id, then ".jpg" |
| Auction.ThumbnailIdRoundTrip | src/com/jbidwatcher/auction/AuctionInfo.java:388-390 | the id can be sliced back out of its thumbnail URL |
| Auction.ThumbnailByIdInjective | src/com/jbidwatcher/auction/AuctionInfo.java:388-390 | distinct ids give distinct thumbnail URLs |
| Auction.BuildCsl | src/com/jbidwatcher/auction/AuctionInfo.java:451-463 | the loop with its "first" flag yields the items joined in order with ", ", and "" for no items |
| Auction.JoinSeparatorCount | src/com/jbidwatcher/auction/AuctionInfo.java:451-463 | items without commas are joined with exactly n-1 separators |
| Auction.SplitJoin | src/com/jbidwatcher/auction/AuctionInfo.java:451-463 | splitting a joined list at ", " gives the items back, so there is no leading or trailing separator |
| Auction.IdListRoundTrip | src/com/jbidwatcher/auction/AuctionInfo.java:435-449 | the id list of the query reads back, item by item, as the ids it was built from |
| Auction.DeleteAll | src/com/jbidwatcher/auction/AuctionInfo.java:435-441 | an empty list returns true with no query; otherwise the store deletes by "id IN (list)" and its answer is returned |
| Auction.FindAllByIds | src/com/jbidwatcher/auction/AuctionInfo.java:443-449 | an empty list finds nothing with no query; otherwise the rows of "SELECT * FROM auctions WHERE id IN (list)" |
| Auction.ChildAt | src/com/jbidwatcher/auction/AuctionInfo.java:140-198 | the child written for a position of the output order carries that position's name |
| Auction.ChildWrittenWhen | src/com/jbidwatcher/auction/AuctionInfo.java:143-195 | title, location and high bidder exactly when set; the seller exactly when one is held under a name other than "(unknown)"; dates exactly when set; the bid count always; the US price exactly when a non-dollar current price and a US price are set; other amounts exactly when set; flags exactly when true |
| Auction.ChildProperties | src/com/jbidwatcher/auction/AuctionInfo.java:168-191 | insurance carries whether it is optional, dutch the quantity, reserve whether it is met, and fixed a quantity exactly when it is not 1 |
| Auction.XmlChildrenShape | src/com/jbidwatcher/auction/AuctionInfo.java:140-198 | toXML's children are named in output order; a name is written exactly when its position has a child; every child is the child of its position |
| Auction.BidCountAlwaysWritten | src/com/jbidwatcher/auction/AuctionInfo.java:164-166 | the bid count is written whatever the record holds |
| Auction.DateChildRoundTrip | src/com/jbidwatcher/auction/AuctionInfo.java:150-162 | a set start or end date is written, and reading it back with handleTag stores the same date |
| Auction.BidCountChildRoundTrip | src/com/jbidwatcher/auction/AuctionInfo.java:164-166 | the bid count written reads back as the same count |
| Auction.QuantityChildRoundTrip | src/com/jbidwatcher/auction/AuctionInfo.java:183-191 | a dutch or fixed-price child reads back with the flag and the same quantity; the fixed child's omitted quantity of 1 reads back as 1 |
| Auction.ReserveChildRoundTrip | src/com/jbidwatcher/auction/AuctionInfo.java:186-187 | a reserve child reads back with the same reserve-met flag |
| Auction.InsuranceChildRoundTrip | src/com/jbidwatcher/auction/AuctionInfo.java:168-169 | an insurance child reads back with the same amount and optional flag |
| Auction.MonetaryChildRoundTrip | src/com/jbidwatcher/auction/AuctionInfo.java:168-181 | every written amount reads back as the same amount |
| Auction.StringChildRoundTrip | src/com/jbidwatcher/auction/AuctionInfo.java:143-195 | title, location and high bidder read back as the same text |
| Auction.SellerChildRoundTrip | src/com/jbidwatcher/auction/AuctionInfo.java:145-148 | a written seller element reads back as the same seller |
| Auction.AuctionInfo.constructor | src/com/jbidwatcher/auction/AuctionInfo.java:41 | a new record has no attributes, no seller and no thumbnail URL |
| Auction.AuctionInfo.HandleTag | src/com/jbidwatcher/auction/AuctionInfo.java:49-133 | the switch leaves the record and the success flag exactly as the tag's effect says, and the thumbnail URL untouched |
| Auction.AuctionInfo.SetSellerName | src/com/jbidwatcher/auction/AuctionInfo.java:327-341 | the record after the call is the setSellerName effect |
| Auction.AuctionInfo.SetEnd | src/com/jbidwatcher/auction/AuctionInfo.java:361-366 | only "end" changes, to the normalised end date |
| Auction.AuctionInfo.SetThumbnailURL | src/com/jbidwatcher/auction/AuctionInfo.java:374-377 | noThumbnail becomes false and the URL is remembered; nothing else changes |
| Auction.AuctionInfo.ThumbnailURL | src/com/jbidwatcher/auction/AuctionInfo.java:379-382 | the set URL if there is one, otherwise the host, the identifier and ".jpg" |
| Auction.AuctionInfo.AlternateSiteThumbnail | src/com/jbidwatcher/auction/AuctionInfo.java:384-386 | the host, then the identifier with "6464" appended, then ".jpg"; never the plain identifier's URL |
| Auction.AuctionInfo.RefreshSeller | src/com/jbidwatcher/auction/AuctionInfo.java:303-308 | the seller becomes the refreshed seller; nothing else changes |
| Auction.AuctionInfo.GetSeller | src/com/jbidwatcher/auction/AuctionInfo.java:310-313 | refreshes, then returns the seller |
| Auction.AuctionInfo.GetSellerName | src/com/jbidwatcher/auction/AuctionInfo.java:298-301 | refreshes, then returns the seller's name or "(unknown)" |
| Auction.AuctionInfo.GetPositiveFeedbackPercentage | src/com/jbidwatcher/auction/AuctionInfo.java:315-319 | refreshes, then returns the percentage or "n/a" |
| Auction.AuctionInfo.GetFeedbackScore | src/com/jbidwatcher/auction/AuctionInfo.java:321-325 | refreshes, then returns the score or 0 |
| Auction.AuctionInfo.ToXml | src/com/jbidwatcher/auction/AuctionInfo.java:140-198 | refreshes the seller, then adds one child at a time and ends with exactly the children of the output order |

## Left out

- Swing: `ImageIcon` loading, the pixel scaling of `getScaledInstance` and `IconFactory.getCombination`. Icons are tags, overlays are an ordered list and scaling is the (width, height) decision. Image sizes are a parameter.
- `SimpleDateFormat` output and the HTML colouring of the time-left and end-date cells. They are library formatting, kept as a `FormattedDate` tag with a red flag.
- `Currency` arithmetic and text: `Currency.add`, `convertToUSD`, `safeConvert`, `getCurrency`. `Currency.add` is a parameter that may fail, and a currency is an opaque kind with its display text.
- `getSortByValueAt`, `buildEntryFlags` and `compareByClass`. The comparator takes each column's signed comparison as a parameter.
- The database layer: `ActiveRecord`, `Table`, `saveDB`, `find`, `findFirstBy`, `findByIdentifier`, `count`, `uniqueCount`, `findLostAuctions`. `deleteBy`, `findAllBySQL` and the seller lookup and save are parameters.
- GZip content caching (`setContent`, `getContent`, `save`, `loadFile`, `setThumbnail`) and `JConfig` lookups. They are file I/O and configuration.
- `fromXML`. It calls the unseen `AuctionCore.fromXML`, which feeds each tag to `handleTag`, and then saves the seller with `saveDB` when one is held.
- `MultiSnipeManager` and `TableColumnController`. Multisnipe presence is an input of the entry, and custom columns are a `CustomCell` tag.
- `XMLElement` and `Seller` internals. A tag is given as its contents, its decoded contents, its upper-cased properties, whether it has a name child, its parsed seller and its parsed amount. `decodeString` of `encodeString` and the seller's and currency's XML are taken to read back as written.
- `AuctionCore`'s getters are taken to read the keys that `handleTag` writes: an unset key reads as null, the bid count defaults to 0, the quantity to 1, and a flag to false. The getters are in `AuctionCore`, which is not part of this model. The class's own setters write other keys for several of these fields:
  - `setNumBids` writes "numBids" (AuctionInfo.java:368), where `handleTag` writes "bidcount".
  - `setInsuranceOptional` writes "insuranceOptional" (349), where `handleTag` writes "insurance_optional".
  - `setCurBid` writes "curBid" (353), where `handleTag` writes "currently".
  - `setMinBid`, `setBuyNow`, `setItemLocation` and `setFixedPrice` write "minBid", "buy_now", "itemLocation" and "fixedPrice" (354, 359, 347, 350).
  So only one of each pair of keys can be what `getNumBids`, `isInsuranceOptional`, `getCurBid` and the others read.
- Auction.BidCountChildRoundTrip, Auction.InsuranceChildRoundTrip and Auction.ChildWrittenWhen: these hold only under that assumption. The bid count, the insurance-optional flag and the current price that `toXML` reads (AuctionInfo.java:165, 169, 171-172) are taken to be the ones `handleTag` stored.
- The simple setters (`setIdentifier`, `setTitle`, `setCurBid` and the like). Each stores one value under one key. For the fields listed above, that key differs from the one `handleTag` writes.
- AuctionTable.CellValueOf: `getIdentifier` and `getTitle` of `AuctionEntry` are taken to be non-null, and `XMLElement.decodeString` of the title is a tag. `AuctionEntry` is not part of this model. `getItemLocation` may be null, and that null is passed through.
- Domain.FAR_FUTURE: `Constants.FAR_FUTURE` is taken to be the date at the largest 64-bit millisecond count. `Constants` is not part of this model. Only equality with it matters here.
- AuctionTable.AuctionTableModel.Delete: an index out of range, where the Java list throws, is reported as `false` and changes nothing.
- AuctionTable.AuctionTableModel.GetValueAt: a null `Seller` for the feedback columns, where Java throws, is not modelled. The row's seller is always given.
- AuctionTable.AuctionTableModel.GetValueAt: the thumbnail cell uses the corrected cache key of the Findings row (the thumbnail as looked up), not the "file:"-stripped path the source stores under; ThumbnailCellAsWritten models the source's key.
- AuctionTable.AuctionTableModel.constructor: the model keeps its own copy of the row list. In Java it holds the caller's `AuctionList` by reference, so `insert`, `delete` and the removal of a null row also change the caller's list, and rows the caller adds appear in the table; that aliasing is not modelled.
- AuctionTable.KeyDifference: the product of a column's comparison and its direction is unbounded, and the direction may be any integer. Java multiplies two 32-bit ints, which wraps; with a direction of +1 or -1 this differs only for Integer.MIN_VALUE times -1.
- AuctionTable.AuctionTableModel: the icon cache is a static map shared by every model in Java; here each model holds its own.
- AuctionTable.EntryIcon: the two reserve overlays are written as two conditioned steps instead of one nested `if`. They add the same overlays.
- Auction.AuctionInfo.ToXml: the `usprice` child carries the stored amount. The conversion to US dollars that `addCurrencyChild` performs is not modelled.
- JavaText.ParseDecimal: only ASCII digits are read, where `Integer.parseInt` also accepts other Unicode digits.

## Findings

| source | as written | input that shows it | evidently intended | confidence | as-written member | corrected member |
|---|---|---|---|---|---|---|
| src/com/jbidwatcher/ui/auctionTableModel.java:414-423 | the icon cache is looked up under the thumbnail string but filled under the string with "file:" removed | a thumbnail "file:/a.jpg": after the first lookup the cache holds "/a.jpg", so every repaint scales the image again | fill the cache under the key it is looked up by, so the second lookup is served from the cache | medium, not executed | AuctionTable.FileThumbnailNeverCached | AuctionTable.ThumbnailCachedAfterFirstUse |
