/** The order admin (orders/admin.py): the read-only fields, the history
    permissions, the two rendering helpers of the order page, and
    `save_model`, which records a status change made in the admin before
    the order is saved. */
module OrderAdmin {
  import opened Common
  import opened UserModels
  import opened OrderModels
  import opened OrderSignals

  // ---------------------------------------------------------------------
  // str.format() with no arguments

  /** A string with no brace in it. */
  predicate NoBraces(s: string)
  {
    forall i :: 0 <= i < |s| ==> s[i] != '{' && s[i] != '}'
  }

  lemma NoBracesConcat(a: string, b: string)
    requires NoBraces(a) && NoBraces(b)
    ensures NoBraces(a + b)
  {
  }

  /** `c` in front of a formatted text; a failure stays a failure. */
  function Prepend(c: char, r: Option<string>): Option<string>
  {
    if r.Some? then Some([c] + r.value) else None
  }

  /** `s.format()`: a doubled brace stands for one brace; any other brace
      opens (or closes) a replacement field, and with no argument to put in
      it Python raises, here `None`. */
  function PyFormatNoArgs(s: string): (r: Option<string>)
    ensures NoBraces(s) ==> r == Some(s)
    ensures r.Some? ==> |r.value| <= |s|
  {
    if s == [] then Some([])
    else if s[0] == '{' || s[0] == '}' then
      if |s| >= 2 && s[1] == s[0] then Prepend(s[0], PyFormatNoArgs(s[2..])) else None
    else
      assert s == [s[0]] + s[1..];
      assert NoBraces(s) ==> NoBraces(s[1..]);
      Prepend(s[0], PyFormatNoArgs(s[1..]))
  }

  /** Doubles every brace, so that formatting gives the text back. */
  function EscapeBraces(t: string): string
  {
    if t == [] then []
    else if t[0] == '{' || t[0] == '}' then [t[0], t[0]] + EscapeBraces(t[1..])
    else [t[0]] + EscapeBraces(t[1..])
  }

  /** Formatting undoes the escaping: what passing the text as an argument
      would have achieved. */
  lemma {:induction false} FormatOfEscaped(t: string)
    ensures PyFormatNoArgs(EscapeBraces(t)) == Some(t)
  {
    if t != [] {
      FormatOfEscaped(t[1..]);
      var e := EscapeBraces(t);
      assert t == [t[0]] + t[1..];
      if t[0] == '{' || t[0] == '}' {
        assert e[2..] == EscapeBraces(t[1..]);
      } else {
        assert e[1..] == EscapeBraces(t[1..]);
      }
    }
  }

  /** A single '{' at `i`, after brace-free text and before a character
      other than '{': where the format raises. */
  predicate LoneBraceAt(s: string, i: nat)
  {
    && i + 1 < |s| && s[i] == '{' && s[i + 1] != '{'
    && forall k :: 0 <= k < i ==> s[k] != '{' && s[k] != '}'
  }

  lemma {:induction false} LoneBraceFails(s: string, i: nat)
    requires LoneBraceAt(s, i)
    ensures PyFormatNoArgs(s) == None
  {
    if i > 0 {
      assert LoneBraceAt(s[1..], i - 1);
      LoneBraceFails(s[1..], i - 1);
    }
  }

  /** A lone brace stays lone with brace-free text before it and anything
      after. */
  lemma LoneBraceInside(x: string, y: string, z: string, i: nat)
    requires NoBraces(x) && LoneBraceAt(y, i)
    ensures LoneBraceAt(x + y + z, |x| + i)
  {
  }

  // ---------------------------------------------------------------------
  // view_order_items

  const UL_OPEN := "<ul style=\"margin:0;padding-left:20px;\">"
  const UL_CLOSE := "</ul>"
  const LI_OPEN := "<li>"
  const LI_CLOSE := "</li>"
  const NO_ITEMS := "Aucun article"
  const NO_HISTORY := "Aucun historique"

  lemma MarkupHasNoBraces()
    ensures NoBraces(UL_OPEN) && NoBraces(LI_OPEN) && NoBraces(LI_CLOSE) && NoBraces(UL_CLOSE)
  {
  }

  /** One list entry per item, each the item's text. */
  function ItemEntries(items: seq<OrderItem>, products: map<ProductId, Product>): string
  {
    if items == [] then []
    else ItemEntries(items[..|items| - 1], products) + LI_OPEN + ItemString(items[|items| - 1], products) + LI_CLOSE
  }

  /** The items as the page means to show them: the placeholder when there
      are none, otherwise a list with one entry per item, in order. */
  function ViewOrderItems(items: seq<OrderItem>, products: map<ProductId, Product>): string
  {
    if items == [] then NO_ITEMS else UL_OPEN + ItemEntries(items, products) + UL_CLOSE
  }

  /** As written: the built markup goes through `format_html` with no
      argument, that is through `str.format()`. */
  function ViewOrderItemsAsWritten(items: seq<OrderItem>, products: map<ProductId, Product>): Option<string>
  {
    if items == [] then Some(NO_ITEMS) else PyFormatNoArgs(UL_OPEN + ItemEntries(items, products) + UL_CLOSE)
  }

  /** Without braces in the entries the two agree. */
  lemma ItemsAsWrittenAgrees(items: seq<OrderItem>, products: map<ProductId, Product>)
    requires NoBraces(ItemEntries(items, products))
    ensures ViewOrderItemsAsWritten(items, products) == Some(ViewOrderItems(items, products))
  {
    if items != [] {
      MarkupHasNoBraces();
      NoBracesConcat(UL_OPEN, ItemEntries(items, products));
      NoBracesConcat(UL_OPEN + ItemEntries(items, products), UL_CLOSE);
    }
  }

  const PACK_PRODUCTS: map<ProductId, Product> := map[0 := Product("Pack {2}", 1.0, 1)]
  const PACK_ITEMS: seq<OrderItem> := [OrderItem(Some(0), 1.0, 1)]
  const PACK_ENTRY := "1x Pack {2}"

  lemma PackEntries()
    ensures ItemEntries(PACK_ITEMS, PACK_PRODUCTS) == LI_OPEN + PACK_ENTRY + LI_CLOSE
  {
    assert NatToString(1) == "1";
    assert PACK_ITEMS[..0] == [];
    assert ItemString(PACK_ITEMS[0], PACK_PRODUCTS) == PACK_ENTRY;
  }

  /** An order with one item whose product is called "Pack {2}": the page
      means to list "1x Pack {2}", but the format raises. */
  lemma ItemsAsWrittenFailsOnBrace()
    ensures ViewOrderItemsAsWritten(PACK_ITEMS, PACK_PRODUCTS) == None
    ensures ViewOrderItems(PACK_ITEMS, PACK_PRODUCTS) == UL_OPEN + LI_OPEN + PACK_ENTRY + LI_CLOSE + UL_CLOSE
  {
    PackEntries();
    assert LoneBraceAt(PACK_ENTRY, 8);
    MarkupHasNoBraces();
    LoneBraceInside(LI_OPEN, PACK_ENTRY, LI_CLOSE, 8);
    var entries := ItemEntries(PACK_ITEMS, PACK_PRODUCTS);
    LoneBraceInside(UL_OPEN, entries, UL_CLOSE, |LI_OPEN| + 8);
    LoneBraceFails(UL_OPEN + entries + UL_CLOSE, |UL_OPEN| + |LI_OPEN| + 8);
  }

  /** The placeholder for an order without items; otherwise the list. */
  lemma ViewOrderItemsShape(items: seq<OrderItem>, products: map<ProductId, Product>)
    ensures items == [] <==> ViewOrderItems(items, products) == NO_ITEMS
    ensures items != [] ==> ViewOrderItems(items, products) == UL_OPEN + ItemEntries(items, products) + UL_CLOSE
  {
    if items != [] {
      var s := ViewOrderItems(items, products);
      assert s[0] == '<' && NO_ITEMS[0] == 'A';
    }
  }

  // ---------------------------------------------------------------------
  // view_status_history

  /** Newest first: no row comes before a row stamped later. */
  predicate IsNewestFirst(rows: seq<HistoryRow>)
  {
    forall i, j :: 0 <= i < j < |rows| ==> TimeKey(rows[j].createdAt) <= TimeKey(rows[i].createdAt)
  }

  /** Puts `h` into a list sorted newest first, ahead of the rows stamped
      at the same time or earlier. */
  function InsertNewest(h: HistoryRow, rows: seq<HistoryRow>): (r: seq<HistoryRow>)
    ensures multiset(r) == multiset(rows) + multiset{h}
  {
    if rows == [] then [h]
    else if TimeKey(rows[0].createdAt) <= TimeKey(h.createdAt) then [h] + rows
    else
      assert rows == [rows[0]] + rows[1..];
      [rows[0]] + InsertNewest(h, rows[1..])
  }

  /** Inserting into a list sorted newest first keeps it sorted. */
  lemma {:induction false} InsertNewestSorted(h: HistoryRow, rows: seq<HistoryRow>)
    requires IsNewestFirst(rows)
    ensures IsNewestFirst(InsertNewest(h, rows))
  {
    if rows != [] && TimeKey(h.createdAt) < TimeKey(rows[0].createdAt) {
      var rest := InsertNewest(h, rows[1..]);
      InsertNewestSorted(h, rows[1..]);
      forall k | 0 <= k < |rest|
        ensures TimeKey(rest[k].createdAt) <= TimeKey(rows[0].createdAt)
      {
        InsertedFrom(h, rows, rest, k);
      }
      PrependSorted(rows[0], rest);
    }
  }

  /** Every row of the inserted list is `h` or one of the rows after the
      head, all no newer than the head. */
  lemma InsertedFrom(h: HistoryRow, rows: seq<HistoryRow>, rest: seq<HistoryRow>, k: nat)
    requires IsNewestFirst(rows) && rows != []
    requires TimeKey(h.createdAt) < TimeKey(rows[0].createdAt)
    requires multiset(rest) == multiset(rows[1..]) + multiset{h}
    requires k < |rest|
    ensures TimeKey(rest[k].createdAt) <= TimeKey(rows[0].createdAt)
  {
    assert rest[k] in multiset(rest);
    if rest[k] != h {
      assert rest[k] in multiset(rows[1..]);
      var j :| 0 <= j < |rows[1..]| && rows[1..][j] == rest[k];
      assert rows[j + 1] == rest[k];
    }
  }

  /** A row no older than every row of a sorted list can head it. */
  lemma PrependSorted(x: HistoryRow, rest: seq<HistoryRow>)
    requires IsNewestFirst(rest)
    requires forall k :: 0 <= k < |rest| ==> TimeKey(rest[k].createdAt) <= TimeKey(x.createdAt)
    ensures IsNewestFirst([x] + rest)
  {
    var r := [x] + rest;
    forall i, j | 0 <= i < j < |r|
      ensures TimeKey(r[j].createdAt) <= TimeKey(r[i].createdAt)
    {
      assert r[j] == rest[j - 1];
      if i > 0 {
        assert r[i] == rest[i - 1];
      }
    }
  }

  /** `order_by('-created_at')`: the rows from the newest to the oldest;
      rows stamped at the same instant keep the later-added row first. */
  function NewestFirst(rows: seq<HistoryRow>): seq<HistoryRow>
  {
    if rows == [] then []
    else InsertNewest(rows[|rows| - 1], NewestFirst(rows[..|rows| - 1]))
  }

  /** The history is shown as exactly its rows, newest first. */
  lemma {:induction false} NewestFirstSorts(rows: seq<HistoryRow>)
    ensures IsNewestFirst(NewestFirst(rows))
    ensures multiset(NewestFirst(rows)) == multiset(rows)
  {
    if rows != [] {
      var n := |rows| - 1;
      NewestFirstSorts(rows[..n]);
      InsertNewestSorted(rows[n], NewestFirst(rows[..n]));
      assert rows == rows[..n] + [rows[n]];
    }
  }

  function Reversed<T>(s: seq<T>): (r: seq<T>)
    ensures |r| == |s|
    ensures forall i :: 0 <= i < |s| ==> r[i] == s[|s| - 1 - i]
  {
    if s == [] then [] else [s[|s| - 1]] + Reversed(s[..|s| - 1])
  }

  /** A row newer than every row of the list goes in front. */
  lemma InsertNewestFront(h: HistoryRow, rows: seq<HistoryRow>)
    requires forall i :: 0 <= i < |rows| ==> TimeKey(rows[i].createdAt) < TimeKey(h.createdAt)
    ensures InsertNewest(h, rows) == [h] + rows
  {
  }

  /** A history whose rows were added at strictly increasing instants is
      shown in the reverse of the order it was written in. */
  lemma {:induction false} NewestFirstOfStrictlyDated(rows: seq<HistoryRow>)
    requires forall i, j :: 0 <= i < j < |rows| ==> TimeKey(rows[i].createdAt) < TimeKey(rows[j].createdAt)
    ensures NewestFirst(rows) == Reversed(rows)
  {
    if rows != [] {
      var n := |rows| - 1;
      NewestFirstOfStrictlyDated(rows[..n]);
      InsertNewestFront(rows[n], Reversed(rows[..n]));
    }
  }

  /** An entry's first part: the status label and the minute of the row. */
  function EntryHead(h: HistoryRow): string
  {
    LI_OPEN + Display(STATUS_CHOICES, h.status) + " - " + DayMinute(h.createdAt)
  }

  /** The notes in emphasis, when there are non-empty notes. */
  function NotesPart(notes: Option<string>): string
  {
    if notes.Some? && notes.value != "" then "<br><em>" + notes.value + "</em>" else ""
  }

  function HistoryEntry(h: HistoryRow): string
  {
    EntryHead(h) + NotesPart(h.notes) + LI_CLOSE
  }

  function HistoryEntries(rows: seq<HistoryRow>): string
  {
    if rows == [] then [] else HistoryEntries(rows[..|rows| - 1]) + HistoryEntry(rows[|rows| - 1])
  }

  /** The history as the page means to show it: the placeholder when there
      is none, otherwise one entry per row, newest first. */
  function ViewStatusHistory(rows: seq<HistoryRow>): string
  {
    if rows == [] then NO_HISTORY else UL_OPEN + HistoryEntries(NewestFirst(rows)) + UL_CLOSE
  }

  /** As written, through `str.format()`. */
  function ViewStatusHistoryAsWritten(rows: seq<HistoryRow>): Option<string>
  {
    if rows == [] then Some(NO_HISTORY) else PyFormatNoArgs(UL_OPEN + HistoryEntries(NewestFirst(rows)) + UL_CLOSE)
  }

  /** Without braces in the entries the two agree. */
  lemma HistoryAsWrittenAgrees(rows: seq<HistoryRow>)
    requires NoBraces(HistoryEntries(NewestFirst(rows)))
    ensures ViewStatusHistoryAsWritten(rows) == Some(ViewStatusHistory(rows))
  {
    if rows != [] {
      MarkupHasNoBraces();
      NoBracesConcat(UL_OPEN, HistoryEntries(NewestFirst(rows)));
      NoBracesConcat(UL_OPEN + HistoryEntries(NewestFirst(rows)), UL_CLOSE);
    }
  }

  /** The placeholder for an order without history; otherwise one entry
      per row, the rows shown being exactly the order's rows, newest
      first. */
  lemma ViewStatusHistoryShape(rows: seq<HistoryRow>)
    ensures rows == [] <==> ViewStatusHistory(rows) == NO_HISTORY
    ensures rows != [] ==> ViewStatusHistory(rows) == UL_OPEN + HistoryEntries(NewestFirst(rows)) + UL_CLOSE
    ensures IsNewestFirst(NewestFirst(rows)) && multiset(NewestFirst(rows)) == multiset(rows)
  {
    NewestFirstSorts(rows);
    if rows != [] {
      var s := ViewStatusHistory(rows);
      assert s[0] == '<' && NO_HISTORY[0] == 'A';
    }
  }

  lemma SingleRowShown(h: HistoryRow)
    ensures HistoryEntries(NewestFirst([h])) == HistoryEntry(h)
  {
    assert NewestFirst([h]) == [h];
    assert [h][..0] == [];
  }

  /** A single row whose notes begin with a single '{', such as a staff
      member's "{urgent}": the page means to show it, but the format
      raises. */
  lemma HistoryAsWrittenFailsOnBrace(h: HistoryRow, rest: string)
    requires NoBraces(h.status)
    requires h.notes == Some("{" + rest) && (rest == [] || rest[0] != '{')
    ensures ViewStatusHistoryAsWritten([h]) == None
    ensures ViewStatusHistory([h]) == UL_OPEN + HistoryEntry(h) + UL_CLOSE
  {
    SingleRowShown(h);
    var notes := NotesPart(h.notes);
    NotesBrace(rest);
    HeadHasNoBraces(h);
    LoneBraceInside(EntryHead(h), notes, LI_CLOSE, 8);
    MarkupHasNoBraces();
    LoneBraceInside(UL_OPEN, HistoryEntry(h), UL_CLOSE, |EntryHead(h)| + 8);
    LoneBraceFails(UL_OPEN + HistoryEntry(h) + UL_CLOSE, |UL_OPEN| + |EntryHead(h)| + 8);
  }

  lemma NotesBrace(rest: string)
    requires rest == [] || rest[0] != '{'
    ensures LoneBraceAt(NotesPart(Some("{" + rest)), 8)
  {
  }

  lemma HeadHasNoBraces(h: HistoryRow)
    requires NoBraces(h.status)
    ensures NoBraces(EntryHead(h))
  {
    StatusLabelsHaveNoBraces();
    DisplayHasNoBraces(STATUS_CHOICES, h.status);
    HeadOfHasNoBraces(Display(STATUS_CHOICES, h.status), h.createdAt);
  }

  /** The head of an entry has no brace when the status shown has none. */
  lemma HeadOfHasNoBraces(shown: string, t: DateTime)
    requires NoBraces(shown)
    ensures NoBraces(LI_OPEN + shown + " - " + DayMinute(t))
  {
    MinuteHasNoBraces(t);
    MarkupHasNoBraces();
    assert NoBraces(" - ");
    NoBracesJoin(LI_OPEN, shown, " - ", DayMinute(t));
  }

  lemma NoBracesJoin(a: string, b: string, c: string, d: string)
    requires NoBraces(a) && NoBraces(b) && NoBraces(c) && NoBraces(d)
    ensures NoBraces(a + b + c + d)
  {
    NoBracesConcat(a, b);
    NoBracesConcat(a + b, c);
    NoBracesConcat(a + b + c, d);
  }

  /** The minute stamp is digits and separators. */
  lemma MinuteHasNoBraces(t: DateTime)
    ensures NoBraces(DayMinute(t))
  {
    var d := Fixed(t.day, 2);
    var mo := Fixed(t.month, 2);
    var y := Fixed(t.year, 4);
    var h := Fixed(t.hour, 2);
    var mi := Fixed(t.minute, 2);
    assert NoBraces(d) && NoBraces(mo) && NoBraces(y) && NoBraces(h) && NoBraces(mi);
    assert NoBraces("/") && NoBraces(" ") && NoBraces(":");
    NoBracesConcat(d, "/");
    NoBracesConcat(d + "/", mo);
    NoBracesConcat(d + "/" + mo, "/");
    NoBracesConcat(d + "/" + mo + "/", y);
    NoBracesConcat(d + "/" + mo + "/" + y, " ");
    NoBracesConcat(d + "/" + mo + "/" + y + " ", h);
    NoBracesConcat(d + "/" + mo + "/" + y + " " + h, ":");
    NoBracesConcat(d + "/" + mo + "/" + y + " " + h + ":", mi);
  }

  predicate LabelsHaveNoBraces(choices: seq<(string, string)>)
  {
    forall k :: 0 <= k < |choices| ==> NoBraces(choices[k].1)
  }

  /** None of the five status labels holds a brace. */
  lemma StatusLabelsHaveNoBraces()
    ensures LabelsHaveNoBraces(STATUS_CHOICES)
  {
    assert NoBraces(STATUS_CHOICES[0].1) && NoBraces(STATUS_CHOICES[1].1) && NoBraces(STATUS_CHOICES[2].1)
        && NoBraces(STATUS_CHOICES[3].1) && NoBraces(STATUS_CHOICES[4].1);
  }

  /** A label of a list without braces, or an unlisted value shown as it
      is, has no brace when the value has none. */
  lemma DisplayHasNoBraces(choices: seq<(string, string)>, s: string)
    requires LabelsHaveNoBraces(choices) && NoBraces(s)
    ensures NoBraces(Display(choices, s))
  {
    DisplayIsLabel(choices, s);
  }

  /** `Display` gives a label of the list or the value itself. */
  lemma {:induction false} DisplayIsLabel(choices: seq<(string, string)>, v: string)
    ensures Display(choices, v) == v || exists k :: 0 <= k < |choices| && Display(choices, v) == choices[k].1
  {
    if choices != [] && choices[0].0 != v {
      DisplayIsLabel(choices[1..], v);
      if Display(choices[1..], v) != v {
        var k :| 0 <= k < |choices[1..]| && Display(choices[1..], v) == choices[1..][k].1;
        assert Display(choices, v) == choices[k + 1].1;
      }
    }
  }

  // ---------------------------------------------------------------------
  // Read-only fields and history permissions

  /** The fields of the order change page. */
  datatype OrderField =
    | OrderNumber | Owner | Status | PaymentStatus | TotalAmount | TaxAmount | ShippingCost
    | ItemsList | HistoryList
    | ShippingAddress | BillingAddress | PhoneNumber | Email | Notes
    | CreatedAt | UpdatedAt | PaidAt

  /** The page's three fieldsets: the order, delivery and billing, dates. */
  const ORDER_FIELDSET: seq<OrderField> :=
    [OrderNumber, Owner, Status, PaymentStatus, TotalAmount, TaxAmount, ShippingCost, ItemsList, HistoryList]
  const DELIVERY_FIELDSET: seq<OrderField> := [ShippingAddress, BillingAddress, PhoneNumber, Email, Notes]
  const DATES_FIELDSET: seq<OrderField> := [CreatedAt, UpdatedAt, PaidAt]

  const ORDER_READONLY: seq<OrderField> := [
    OrderNumber, Owner, TotalAmount, TaxAmount, ShippingCost,
    CreatedAt, UpdatedAt, PaidAt, ItemsList, HistoryList
  ]

  /** The fields staff may edit on the change page, in page order. */
  const ORDER_EDITABLE: seq<OrderField> := [Status, PaymentStatus, ShippingAddress, BillingAddress, PhoneNumber, Email, Notes]

  /** The item inline shows these fields and makes all of them read-only. */
  const ITEM_INLINE_FIELDS: seq<string> := ["product", "price", "quantity", "get_cost"]
  const ITEM_INLINE_READONLY: seq<string> := ["product", "price", "quantity", "get_cost"]

  /** The history inline shows these fields, the last two read-only. */
  const HISTORY_INLINE_FIELDS: seq<string> := ["status", "notes", "created_at", "created_by"]
  const HISTORY_INLINE_READONLY: seq<string> := ["created_at", "created_by"]

  /** The fields a page shows that it does not make read-only, in order. */
  function Editable<T(==)>(fields: seq<T>, readonly: seq<T>): seq<T>
  {
    if fields == [] then []
    else (if fields[0] in readonly then [] else [fields[0]]) + Editable(fields[1..], readonly)
  }

  lemma {:induction false} EditableMembers<T>(fields: seq<T>, readonly: seq<T>)
    ensures forall f :: f in Editable(fields, readonly) <==> f in fields && f !in readonly
  {
    if fields != [] {
      EditableMembers(fields[1..], readonly);
      assert fields == [fields[0]] + fields[1..];
    }
  }

  lemma {:induction false} EditableAppend<T>(a: seq<T>, b: seq<T>, readonly: seq<T>)
    ensures Editable(a + b, readonly) == Editable(a, readonly) + Editable(b, readonly)
  {
    if a != [] {
      EditableAppend(a[1..], b, readonly);
      var x := if a[0] in readonly then [] else [a[0]];
      assert (a + b)[0] == a[0];
      assert (a + b)[1..] == a[1..] + b;
      assert Editable(a + b, readonly) == x + (Editable(a[1..], readonly) + Editable(b, readonly));
      assert Editable(a, readonly) == x + Editable(a[1..], readonly);
    } else {
      assert a + b == b;
    }
  }

  lemma EditableOrderFieldset()
    ensures Editable(ORDER_FIELDSET, ORDER_READONLY) == [Status, PaymentStatus]
  {
    var f := ORDER_FIELDSET;
    var r := ORDER_READONLY;
    assert Editable(f[9..], r) == [];
    assert Editable(f[8..], r) == [];
    assert Editable(f[7..], r) == [];
    assert Editable(f[6..], r) == [];
    assert Editable(f[5..], r) == [];
    assert Editable(f[4..], r) == [];
    assert Editable(f[3..], r) == [PaymentStatus];
    assert Editable(f[2..], r) == [Status, PaymentStatus];
    assert Editable(f[1..], r) == [Status, PaymentStatus];
  }

  lemma EditableOtherFieldsets()
    ensures Editable(DELIVERY_FIELDSET, ORDER_READONLY) == DELIVERY_FIELDSET
    ensures Editable(DATES_FIELDSET, ORDER_READONLY) == []
  {
    var d := DELIVERY_FIELDSET;
    var r := ORDER_READONLY;
    assert Editable(d[5..], r) == [];
    assert Editable(d[4..], r) == d[4..];
    assert Editable(d[3..], r) == d[3..];
    assert Editable(d[2..], r) == d[2..];
    assert Editable(d[1..], r) == d[1..];
    var t := DATES_FIELDSET;
    assert Editable(t[3..], r) == [];
    assert Editable(t[2..], r) == [];
    assert Editable(t[1..], r) == [];
  }

  lemma EditableListed()
    ensures ORDER_EDITABLE == [Status, PaymentStatus] + DELIVERY_FIELDSET
  {
  }

  /** The order page edits the two statuses, the addresses, the phone
      number, the e-mail and the notes, and nothing else. */
  lemma EditableOrderFields()
    ensures Editable(ORDER_FIELDSET + DELIVERY_FIELDSET + DATES_FIELDSET, ORDER_READONLY) == ORDER_EDITABLE
  {
    EditableAppend(ORDER_FIELDSET, DELIVERY_FIELDSET, ORDER_READONLY);
    EditableAppend(ORDER_FIELDSET + DELIVERY_FIELDSET, DATES_FIELDSET, ORDER_READONLY);
    EditableOrderFieldset();
    EditableOtherFieldsets();
    EditableListed();
    assert [Status, PaymentStatus] + DELIVERY_FIELDSET + [] == [Status, PaymentStatus] + DELIVERY_FIELDSET;
  }

  /** No field is both read-only and editable. */
  lemma EditableNotReadOnly()
    ensures forall f :: f in ORDER_EDITABLE ==> f !in ORDER_READONLY
  {
  }

  /** The item inline edits nothing; the history inline edits a row's
      status and notes. */
  lemma EditableInlineFields()
    ensures Editable(ITEM_INLINE_FIELDS, ITEM_INLINE_READONLY) == []
    ensures Editable(HISTORY_INLINE_FIELDS, HISTORY_INLINE_READONLY) == ["status", "notes"]
  {
    var h := HISTORY_INLINE_FIELDS;
    var r := HISTORY_INLINE_READONLY;
    assert Editable(h[4..], r) == [];
    assert Editable(h[3..], r) == [];
    assert Editable(h[2..], r) == [];
    assert Editable(h[1..], r) == ["notes"];
  }

  /** Where a history row is managed: in the inline of the order page, or
      on the history admin's own pages. */
  datatype HistoryScreen = OrderPageInline | HistoryAdminPage

  datatype AdminAction = AddRows | ChangeRows | DeleteRows | ViewRows

  /** Whether the admin offers `action` on history rows on `screen` to a
      user whose model permissions grant it (`granted`). */
  function HistoryPermission(screen: HistoryScreen, action: AdminAction, granted: bool): bool
  {
    match (screen, action)
    case (OrderPageInline, DeleteRows) => false
    case (HistoryAdminPage, AddRows) => false
    case (HistoryAdminPage, ChangeRows) => false
    case _ => granted
  }

  /** No one deletes a row from the order page or adds or edits one on the
      history admin; everything else follows the user's permissions. */
  lemma HistoryRowsProtected(screen: HistoryScreen, action: AdminAction, granted: bool)
    ensures !HistoryPermission(OrderPageInline, DeleteRows, granted)
    ensures !HistoryPermission(HistoryAdminPage, AddRows, granted) && !HistoryPermission(HistoryAdminPage, ChangeRows, granted)
    ensures !(screen == OrderPageInline && action == DeleteRows) && !(screen == HistoryAdminPage && action in {AddRows, ChangeRows})
            ==> HistoryPermission(screen, action, granted) == granted
  {
  }

  // ---------------------------------------------------------------------
  // save_model

  /** The values of the editable fields, as the page submits them. */
  datatype AdminEdits = AdminEdits(status: string, paymentStatus: string, shippingAddress: string,
                                   billingAddress: string, phoneNumber: string, email: string,
                                   notes: Option<string>)

  /** The order once the page's values are applied. */
  function ApplyAdminEdits(o: Order, e: AdminEdits): Order
  {
    o.(status := e.status, paymentStatus := e.paymentStatus, shippingAddress := e.shippingAddress,
       billingAddress := e.billingAddress, phoneNumber := e.phoneNumber, email := e.email, notes := e.notes)
  }

  /** The read-only fields come out as they were. */
  lemma AdminEditsKeepReadOnly(o: Order, e: AdminEdits)
    ensures var r := ApplyAdminEdits(o, e);
            && r.orderNumber == o.orderNumber && r.user == o.user
            && r.totalAmount == o.totalAmount && r.taxAmount == o.taxAmount
            && r.shippingCost == o.shippingCost && r.paidAt == o.paidAt
            && r.status == e.status && r.notes == e.notes
  {
  }

  /** A stored or submitted value as `Field.has_changed` compares it: None
      reads as "". */
  function AsFormText(v: Option<string>): string
  {
    if v.None? then "" else v.value
  }

  /** `form.changed_data`: the editable fields whose value differs, in
      page order. The notes are compared as form text, so a null stored
      note and an empty submitted one are no change. */
  function ChangedData(o: Order, e: AdminEdits): seq<OrderField>
  {
    (if o.status != e.status then [Status] else [])
      + (if o.paymentStatus != e.paymentStatus then [PaymentStatus] else [])
      + (if o.shippingAddress != e.shippingAddress then [ShippingAddress] else [])
      + (if o.billingAddress != e.billingAddress then [BillingAddress] else [])
      + (if o.phoneNumber != e.phoneNumber then [PhoneNumber] else [])
      + (if o.email != e.email then [Email] else [])
      + (if AsFormText(o.notes) != AsFormText(e.notes) then [Notes] else [])
  }

  /** Only editable fields are reported, the status exactly when it was
      changed and the notes exactly when their text was. Nothing is
      reported exactly when the page leaves the order as it was, up to a
      null note becoming ""; when the notes are both null or both set,
      exactly when the page leaves the order unchanged. */
  lemma ChangedDataFacts(o: Order, e: AdminEdits)
    ensures forall f :: f in ChangedData(o, e) ==> f in ORDER_EDITABLE
    ensures Status in ChangedData(o, e) <==> o.status != e.status
    ensures Notes in ChangedData(o, e) <==> AsFormText(o.notes) != AsFormText(e.notes)
    ensures ChangedData(o, e) == [] <==>
              ApplyAdminEdits(o, e).(notes := o.notes) == o && AsFormText(o.notes) == AsFormText(e.notes)
    ensures (o.notes.Some? <==> e.notes.Some?) ==> (ChangedData(o, e) == [] <==> ApplyAdminEdits(o, e) == o)
  {
  }

  /** A null stored note submitted back as "" is not reported as changed,
      although the order then stores "". */
  lemma EmptyNoteNoChange(o: Order, e: AdminEdits)
    requires o.notes.None? && e.notes == Some("")
    requires e.status == o.status && e.paymentStatus == o.paymentStatus
    requires e.shippingAddress == o.shippingAddress && e.billingAddress == o.billingAddress
    requires e.phoneNumber == o.phoneNumber && e.email == o.email
    ensures ChangedData(o, e) == [] && ApplyAdminEdits(o, e).notes == Some("")
  {
  }

  const ADMIN_CHANGE_NOTE := "Changement de statut via l'admin par "

  /** The name the note gives the acting staff member: the full name, or
      the e-mail when the full name is empty. */
  function ActorName(actor: User): (r: string)
    ensures GetFullName(actor) != "" ==> r == GetFullName(actor)
    ensures GetFullName(actor) == "" ==> r == actor.email
  {
    var full := GetFullName(actor);
    if full != "" then full else actor.email
  }

  /** The row `save_model` appends: the new status, attributed to the
      acting staff member. */
  function AdminRow(obj: Order, actor: User, now: DateTime): HistoryRow
  {
    HistoryRow(obj.status, Some(ADMIN_CHANGE_NOTE + ActorName(actor)), Some(actor.id), now)
  }

  /** `save_model`: on the change page of order `pk`, with the status among
      the changed fields, the staff row is appended first; then the order
      is saved, with the receivers around the save when they are
      connected. On the add page (`pk` absent) the admin writes no row. */
  function SaveModelSpec(db: Db, pk: Option<OrderId>, obj: Order, changed: seq<OrderField>,
                         actor: User, now: DateTime, signals: bool): (Db, SaveResult)
    requires DbValid(db)
    requires pk.Some? ==> pk.value in db.orders
  {
    if pk.Some? && Status in changed then
      AppendKeepsValid(db, pk.value, AdminRow(obj, actor, now), []);
      SaveSpec(AppendRow(db, pk.value, AdminRow(obj, actor, now)), pk, obj, now, signals)
    else SaveSpec(db, pk, obj, now, signals)
  }

  /** The tables after a row was appended to a stored order's history and
      the order was then saved as `inst` (with the receiver's row when
      `tracked`). */
  lemma RowBeforeStoredSave(db: Db, db1: Db, db2: Db, pk: OrderId, inst: Order, row: HistoryRow,
                            change: HistoryRow, tracked: bool)
    requires pk in db.orders && pk in db.history
    requires db1 == AppendRow(db, pk, row)
    requires db2.orders == db1.orders[pk := inst] && db2.items == db1.items
    requires db2.history == (if tracked then db1.history[pk := db1.history[pk] + [change]] else db1.history)
    ensures db2.orders == db.orders[pk := inst] && db2.items == db.items
    ensures db2.history == db.history[pk := db.history[pk] + [row] + (if tracked then [change] else [])]
  {
    if !tracked {
      assert db.history[pk] + [row] + [] == db.history[pk] + [row];
    }
  }

  /** A save from the change page with the status among the changed
      fields: the staff row, then (when tracked) the receiver's row. */
  lemma SaveModelStatusChange(db: Db, pk: OrderId, obj: Order, changed: seq<OrderField>,
                              actor: User, now: DateTime, signals: bool)
    requires DbValid(db) && pk in db.orders && Status in changed
    requires obj.orderNumber == db.orders[pk].orderNumber
    requires IsOrderStatus(obj.status)
    ensures var (db2, res) := SaveModelSpec(db, Some(pk), obj, changed, actor, now, signals);
            var tracked := signals && db.orders[pk].status != obj.status;
            && res == Saved(pk, obj)
            && db2.orders == db.orders[pk := obj] && db2.items == db.items
            && db2.products == (if tracked && obj.status == "cancelled" then Restock(db.products, db.items[pk])
                                else db.products)
            && db2.history == db.history[pk := db.history[pk] + [AdminRow(obj, actor, now)]
                                + (if tracked then [ChangeRow(db.orders[pk].status, obj, now)] else [])]
  {
    var row := AdminRow(obj, actor, now);
    var db1 := AppendRow(db, pk, row);
    AppendKeepsValid(db, pk, row, []);
    OrderStatusIsNotPaid(obj.status);
    SaveStoredTables(db1, pk, obj, now, signals);
    var tracked := signals && db.orders[pk].status != obj.status;
    var db2 := SaveSpec(db1, Some(pk), obj, now, signals).0;
    assert SaveModelSpec(db, Some(pk), obj, changed, actor, now, signals) == SaveSpec(db1, Some(pk), obj, now, signals);
    RowBeforeStoredSave(db, db1, db2, pk, obj, row, ChangeRow(db.orders[pk].status, obj, now), tracked);
  }

  /** Without the status among the changed fields, or on the add page, the
      admin adds nothing to a plain save. */
  lemma SaveModelWithoutStatusChange(db: Db, pk: Option<OrderId>, obj: Order, changed: seq<OrderField>,
                                     actor: User, now: DateTime, signals: bool)
    requires DbValid(db)
    requires pk.Some? ==> pk.value in db.orders
    requires pk.None? || Status !in changed
    ensures SaveModelSpec(db, pk, obj, changed, actor, now, signals) == SaveSpec(db, pk, obj, now, signals)
  {
  }

  /** Editing a stored order on its change page and changing its status:
      the order takes the page's values; the staff row, attributed to the
      staff member, is appended, and, when the receivers are connected,
      after it the receiver's row, attributed to the order's owner: two
      rows for one change. */
  lemma AdminEditChangingStatus(db: Db, pk: OrderId, e: AdminEdits, actor: User, now: DateTime, signals: bool)
    requires DbValid(db) && pk in db.orders
    requires IsOrderStatus(e.status) && e.status != db.orders[pk].status
    ensures var o := db.orders[pk];
            var obj := ApplyAdminEdits(o, e);
            var (db2, res) := SaveModelSpec(db, Some(pk), obj, ChangedData(o, e), actor, now, signals);
            && res == Saved(pk, obj)
            && db2.orders == db.orders[pk := obj]
            && db2.history == db.history[pk := db.history[pk] + [AdminRow(obj, actor, now)]
                 + (if signals then [ChangeRow(o.status, obj, now)] else [])]
  {
    var o := db.orders[pk];
    ChangedDataFacts(o, e);
    SaveModelStatusChange(db, pk, ApplyAdminEdits(o, e), ChangedData(o, e), actor, now, signals);
  }

  /** Editing a stored order on its change page without changing its
      status: the order takes the page's values and no row is added. */
  lemma AdminEditKeepingStatus(db: Db, pk: OrderId, e: AdminEdits, actor: User, now: DateTime, signals: bool)
    requires DbValid(db) && pk in db.orders
    requires IsOrderStatus(e.status) && e.status == db.orders[pk].status
    ensures var o := db.orders[pk];
            var obj := ApplyAdminEdits(o, e);
            var (db2, res) := SaveModelSpec(db, Some(pk), obj, ChangedData(o, e), actor, now, signals);
            && res == Saved(pk, obj)
            && db2.orders == db.orders[pk := obj]
            && db2.history == db.history
            && db2.products == db.products
  {
    var o := db.orders[pk];
    var obj := ApplyAdminEdits(o, e);
    ChangedDataFacts(o, e);
    OrderStatusIsNotPaid(e.status);
    SaveStoredTables(db, pk, obj, now, signals);
  }

  /** `save_model` as it runs. */
  method SaveModel(store: Store, pk: Option<OrderId>, obj: Order, changed: seq<OrderField>,
                   actor: User, now: DateTime, signals: bool) returns (res: SaveResult)
    requires store.Valid()
    requires pk.Some? ==> pk.value in store.orders
    modifies store
    ensures store.Valid()
    ensures (store.State(), res) == SaveModelSpec(old(store.State()), pk, obj, changed, actor, now, signals)
  {
    if pk.Some? && Status in changed {
      AppendKeepsValid(store.State(), pk.value, AdminRow(obj, actor, now), []);
      store.AddHistory(pk.value, AdminRow(obj, actor, now));
    }
    res := SaveOrder(store, pk, obj, now, signals);
  }
}
