/** The admin page that starts a product synchronisation with Allegro: parsing the
    comma-separated product codes, the request it sends, the interlock between the
    "sync all" box and the code field, the button rule and the result table. */
module AdminSync {
  import opened Wrappers
  import Text

  /** `parts.map(c => c.trim()).filter(c => c.length > 0)`. */
  function Codes(parts: seq<string>): (r: seq<string>)
    ensures |r| <= |parts|
    ensures forall k :: 0 <= k < |r| ==> r[k] != "" && Trimmed(r[k])
  {
    if |parts| == 0 then []
    else
      var t := Text.Trim(parts[0]);
      var rest := Codes(parts[1..]);
      if t == "" then rest else [t] + rest
  }

  /** Neither starts nor ends with white space. */
  predicate Trimmed(s: string) {
    |s| == 0 || (!Text.IsJsSpace(s[0]) && !Text.IsJsSpace(s[|s| - 1]))
  }

  /** A string that neither starts nor ends with white space is its own `trim()`. */
  lemma TrimOfTrimmed(s: string)
    requires Trimmed(s)
    ensures Text.Trim(s) == s
  {
    assert Text.TrimStart(s) == s;
    assert Text.TrimEnd(s) == s;
  }

  /** No code holds a character none of the pieces holds. */
  lemma {:induction false} CodesKeepOut(parts: seq<string>, c: char)
    requires forall k :: 0 <= k < |parts| ==> c !in parts[k]
    ensures forall k :: 0 <= k < |Codes(parts)| ==> c !in Codes(parts)[k]
  {
    if |parts| > 0 {
      TrimKeepsOut(parts[0], c);
      CodesKeepOut(parts[1..], c);
      var t := Text.Trim(parts[0]);
      var rest := Codes(parts[1..]);
      assert Codes(parts) == if t == "" then rest else [t] + rest;
    }
  }

  /** Trimming takes no character in. */
  lemma TrimKeepsOut(s: string, c: char)
    ensures c !in s ==> c !in Text.Trim(s)
  {
    var r := Text.Trim(s);
    Text.TrimIsCut(s);
    var i :| Text.TrimCut(s, r, i);
    assert forall j :: 0 <= j < |r| ==> r[j] == s[i + j];
  }

  /** The codes `handleSync` parses from the text field. */
  function ParseCodes(text: string): (r: seq<string>)
    ensures forall k :: 0 <= k < |r| ==> r[k] != "" && Text.Trim(r[k]) == r[k] && ',' !in r[k]
  {
    var r := Codes(Text.Split(text, ','));
    CodesKeepOut(Text.Split(text, ','), ',');
    forall k | 0 <= k < |r|
      ensures Text.Trim(r[k]) == r[k]
    {
      TrimOfTrimmed(r[k]);
    }
    r
  }

  /** The indices of the pieces that are not blank. */
  function NonBlankAt(parts: seq<string>): set<int> {
    set j | 0 <= j < |parts| && !Text.AllSpace(parts[j])
  }

  /** A single piece gives its trimmed text, or nothing when it is blank. */
  lemma CodesOfOne(p: string)
    ensures Codes([p]) == if Text.AllSpace(p) then [] else [Text.Trim(p)]
  {
    Text.TrimEmptyIffAllSpace(p);
    assert [p][1..] == [];
  }

  /** The codes of two runs of pieces are the codes of each, in order. */
  lemma {:induction false} CodesAppend(a: seq<string>, b: seq<string>)
    ensures Codes(a + b) == Codes(a) + Codes(b)
    decreases |a|
  {
    if |a| == 0 {
      assert a + b == b;
    } else {
      assert (a + b)[0] == a[0];
      assert (a + b)[1..] == a[1..] + b;
      CodesAppend(a[1..], b);
    }
  }

  /** There is one code per piece that is not blank. */
  lemma {:induction false} CodesCount(parts: seq<string>)
    ensures |Codes(parts)| == |NonBlankAt(parts)|
    decreases |parts|
  {
    if |parts| == 0 {
      assert NonBlankAt(parts) == {};
    } else {
      var init, last := parts[..|parts| - 1], parts[|parts| - 1];
      assert parts == init + [last];
      CodesAppend(init, [last]);
      CodesOfOne(last);
      CodesCount(init);
      var n := |init|;
      assert NonBlankAt(parts) == NonBlankAt(init) + (if Text.AllSpace(last) then {} else {n}) by {
        forall j ensures j in NonBlankAt(parts) <==> j in NonBlankAt(init) + (if Text.AllSpace(last) then {} else {n}) {
          if 0 <= j < n { assert parts[j] == init[j]; }
        }
      }
      assert n !in NonBlankAt(init);
    }
  }

  /** Every piece that is not blank contributes its trimmed text. */
  lemma {:induction false} NonBlankPiecesAreCodes(parts: seq<string>)
    ensures forall j :: 0 <= j < |parts| && !Text.AllSpace(parts[j]) ==> Text.Trim(parts[j]) in Codes(parts)
    decreases |parts|
  {
    if |parts| > 0 {
      Text.TrimEmptyIffAllSpace(parts[0]);
      NonBlankPiecesAreCodes(parts[1..]);
      forall j | 0 < j < |parts| && !Text.AllSpace(parts[j]) ensures Text.Trim(parts[j]) in Codes(parts) {
        assert parts[j] == parts[1..][j - 1];
      }
    }
  }

  /** The trimmed texts of the pieces that are not blank. */
  function PieceCodes(parts: seq<string>): set<string> {
    set j | 0 <= j < |parts| && !Text.AllSpace(parts[j]) :: Text.Trim(parts[j])
  }

  /** Every code is the trimmed text of a piece that is not blank. */
  lemma {:induction false} CodesArePieces(parts: seq<string>)
    ensures forall k :: 0 <= k < |Codes(parts)| ==> Codes(parts)[k] in PieceCodes(parts)
    decreases |parts|
  {
    if |parts| > 0 {
      var t := Text.Trim(parts[0]);
      var rest := Codes(parts[1..]);
      Text.TrimEmptyIffAllSpace(parts[0]);
      CodesArePieces(parts[1..]);
      forall k | 0 <= k < |Codes(parts)| ensures Codes(parts)[k] in PieceCodes(parts) {
        if t != "" && k == 0 {
          assert Codes(parts)[k] == Text.Trim(parts[0]);
        } else {
          var k' := if t == "" then k else k - 1;
          assert Codes(parts)[k] == rest[k'];
          var j :| 0 <= j < |parts[1..]| && !Text.AllSpace(parts[1..][j]) && rest[k'] == Text.Trim(parts[1..][j]);
          assert parts[j + 1] == parts[1..][j];
        }
      }
    }
  }

  /** The codes are exactly the comma-separated pieces that are not blank, trimmed,
      one per piece and in the order of the text. */
  lemma ParseCodesArePieces(text: string)
    ensures var parts := Text.Split(text, ',');
      && (forall j :: 0 <= j < |parts| && !Text.AllSpace(parts[j]) ==> Text.Trim(parts[j]) in ParseCodes(text))
      && (forall k :: 0 <= k < |ParseCodes(text)| ==> ParseCodes(text)[k] in PieceCodes(parts))
      && |ParseCodes(text)| == |NonBlankAt(parts)|
  {
    var parts := Text.Split(text, ',');
    assert ParseCodes(text) == Codes(parts);
    NonBlankPiecesAreCodes(parts);
    CodesArePieces(parts);
    CodesCount(parts);
  }

  /** No code is parsed exactly when every comma-separated piece is blank. */
  lemma {:induction false} CodesEmptyIff(parts: seq<string>)
    ensures Codes(parts) == [] <==> forall k :: 0 <= k < |parts| ==> Text.AllSpace(parts[k])
  {
    if |parts| > 0 {
      Text.TrimEmptyIffAllSpace(parts[0]);
      CodesEmptyIff(parts[1..]);
      assert forall k :: 1 <= k < |parts| ==> parts[k] == parts[1..][k - 1];
    }
  }

  /** A blank field parses to no codes. */
  lemma BlankTextHasNoCodes(text: string)
    ensures Text.AllSpace(text) ==> ParseCodes(text) == []
  {
    var parts := Text.Split(text, ',');
    CodesEmptyIff(parts);
    if Text.AllSpace(text) {
      SplitOfBlank(text);
    }
  }

  lemma {:induction false} SplitOfBlank(s: string)
    requires Text.AllSpace(s)
    ensures forall k :: 0 <= k < |Text.Split(s, ',')| ==> Text.AllSpace(Text.Split(s, ',')[k])
    decreases |s|
  {
    assert ',' !in s;
  }

  /** The body of `syncProductsFromAllegro`. */
  datatype SyncRequest = SyncRequest(productCodes: Option<seq<string>>, syncAll: bool)

  function BuildRequest(text: string, syncAll: bool): (r: SyncRequest)
    ensures r.productCodes.None? <==> ParseCodes(text) == []
    ensures r.productCodes.Some? ==> r.productCodes.value == ParseCodes(text)
    ensures r.syncAll <==> syncAll && ParseCodes(text) == []
    ensures !(r.syncAll && r.productCodes.Some?)
  {
    var codes := ParseCodes(text);
    SyncRequest(if |codes| > 0 then Some(codes) else None, syncAll && |codes| == 0)
  }

  /** A field holding only commas enables the button (it is not blank) but sends a
      request that names no code and does not ask for everything either. */
  lemma CommaOnlyTextRequestsNothing()
    ensures !SyncDisabled(false, false, ",")
    ensures BuildRequest(",", false) == SyncRequest(None, false)
  {
    assert Text.Split(",", ',') == ["", ""] by {
      assert Text.FirstIndex(",", ',') == 0;
      assert ","[1..] == "";
    }
    assert Text.Trim("") == "";
    assert Text.Trim(",") == ",";
  }

  /** The button rule. */
  function SyncDisabled(syncing: bool, syncAll: bool, productCodes: string): (r: bool)
    ensures r <==> syncing || (!syncAll && Text.AllSpace(productCodes))
  {
    Text.TrimEmptyIffAllSpace(productCodes);
    syncing || (!syncAll && Text.Trim(productCodes) == "")
  }

  datatype SyncedProduct = SyncedProduct(name: string, sku: string, price: int, stockQuantity: int)
  datatype SyncResult = SyncResult(total: int, products: seq<SyncedProduct>, message: string)

  /** How the request ended: a response with its `success` flag, its `data` and its
      `error.message`, or a thrown error with its `message`. */
  datatype SyncOutcome =
    | Responded(success: bool, data: Option<SyncResult>, errorMessage: Option<string>)
    | Threw(message: string)

  /** `value || fallback` on a possibly missing string. */
  function OrDefault(value: Option<string>, fallback: string): (r: string)
    ensures value.Some? && value.value != "" ==> r == value.value
    ensures value.None? || value.value == "" ==> r == fallback
  {
    if value.Some? && value.value != "" then value.value else fallback
  }

  /** The (result, error) pair `handleSync` leaves behind. */
  function AfterSync(outcome: SyncOutcome): (r: (Option<SyncResult>, Option<string>))
    ensures r.0.Some? <==> r.1.None?
    ensures r.0.Some? <==> outcome.Responded? && outcome.success && outcome.data.Some?
    ensures r.0.Some? ==> r.0 == outcome.data
    ensures outcome.Responded? && r.1.Some? ==> r.1.value == OrDefault(outcome.errorMessage, "Sync failed")
    ensures outcome.Threw? ==> r.1 == Some(OrDefault(Some(outcome.message), "Failed to sync products"))
  {
    match outcome
    case Responded(success, data, errorMessage) =>
      if success && data.Some? then (data, None)
      else (None, Some(OrDefault(errorMessage, "Sync failed")))
    case Threw(message) => (None, Some(OrDefault(Some(message), "Failed to sync products")))
  }

  /** The synchronisation never leaves an empty error message behind. */
  lemma ErrorIsNeverBlank(outcome: SyncOutcome)
    ensures AfterSync(outcome).1.Some? ==> AfterSync(outcome).1.value != ""
  {
  }

  const MaxListed := 20

  /** `products.slice(0, 20)`: the rows of the result table. */
  function ListedRows(products: seq<SyncedProduct>): (r: seq<SyncedProduct>)
    ensures r <= products
    ensures |r| == if |products| <= MaxListed then |products| else MaxListed
  {
    if |products| <= MaxListed then products else products[..MaxListed]
  }

  /** "Zobrazeno 20 z N produktů" is shown when there are more than 20 products. */
  predicate ShowsTruncationNote(products: seq<SyncedProduct>) {
    |products| > MaxListed
  }

  /** The note appears exactly when some product is not listed. */
  lemma NoteIffRowsDropped(products: seq<SyncedProduct>)
    ensures ShowsTruncationNote(products) <==> ListedRows(products) != products
  {
    if ShowsTruncationNote(products) {
      assert |ListedRows(products)| < |products|;
    }
  }

  class SyncPage {
    var syncing: bool
    var syncResult: Option<SyncResult>
    var error: Option<string>
    var syncAll: bool
    var productCodes: string
    /** Every request sent to `syncProductsFromAllegro`, in order. */
    var requests: seq<SyncRequest>

    /** While the box is checked the code field is empty (it is also disabled). */
    predicate Interlocked()
      reads this
    {
      syncAll ==> productCodes == ""
    }

    constructor()
      ensures !syncing && syncResult.None? && error.None? && syncAll && productCodes == "" && requests == []
      ensures Interlocked()
    {
      syncing := false;
      syncResult := None;
      error := None;
      syncAll := true;
      productCodes := "";
      requests := [];
    }

    /** The checkbox's `onChange`: checking clears the code text. */
    method ToggleSyncAll(checked: bool)
      modifies this
      ensures syncAll == checked
      ensures productCodes == if checked then "" else old(productCodes)
      ensures syncing == old(syncing) && syncResult == old(syncResult) && error == old(error) && requests == old(requests)
      ensures old(Interlocked()) ==> Interlocked()
    {
      syncAll := checked;
      if checked {
        productCodes := "";
      }
    }

    /** The text field's `onChange`; the field is disabled while the box is checked,
        so no change reaches it then. Non-blank text unchecks the box. */
    method TypeCodes(value: string)
      modifies this
      ensures old(syncAll) ==> syncAll && productCodes == old(productCodes)
      ensures !old(syncAll) ==> !syncAll && productCodes == value
      ensures syncing == old(syncing) && syncResult == old(syncResult) && error == old(error) && requests == old(requests)
      ensures old(Interlocked()) ==> Interlocked()
    {
      if syncAll {
        return;
      }
      productCodes := value;
      if Text.Trim(value) != "" {
        syncAll := false;
      }
    }

    /** `handleSync`: clear the previous outcome, send the request built from the
        current field and box, record the new outcome and end the syncing state. */
    method HandleSync(outcome: SyncOutcome)
      modifies this
      ensures requests == old(requests) + [BuildRequest(old(productCodes), old(syncAll))]
      ensures (syncResult, error) == AfterSync(outcome)
      ensures !syncing
      ensures syncAll == old(syncAll) && productCodes == old(productCodes)
    {
      syncing := true;
      error := None;
      syncResult := None;
      requests := requests + [BuildRequest(productCodes, syncAll)];
      var next := AfterSync(outcome);
      syncResult := next.0;
      error := next.1;
      syncing := false;
    }
  }

  /** With the interlock, a checked box always asks for everything. */
  lemma CheckedBoxSyncsAll(syncAll: bool, productCodes: string)
    requires syncAll ==> productCodes == ""
    ensures syncAll ==> BuildRequest(productCodes, syncAll) == SyncRequest(None, true)
  {
    if syncAll {
      assert Text.Split("", ',') == [""];
      assert Text.Trim("") == "";
    }
  }
}
