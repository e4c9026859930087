/** The popup list page (`app._index`): the loader lists the shop's popups,
    most recently saved first; the action switches one popup on or off; the
    page shows either an empty state or a table with a pluralised footer. */
module PopupIndexRoute {
  import opened Common
  import opened PopupStore
  import NewPopupRoute

  /** Most recently saved first: no popup is newer than the one before it
      (`NewestFirstOrdersAll` extends this to any two positions). */
  predicate NewestFirst(s: seq<Popup>) {
    forall i :: 0 < i < |s| ==> s[i - 1].updatedAt >= s[i].updatedAt
  }

  lemma {:induction false} NewestFirstOrdersAll(s: seq<Popup>, i: int, j: int)
    requires NewestFirst(s) && 0 <= i <= j < |s|
    ensures s[i].updatedAt >= s[j].updatedAt
    decreases j - i
  {
    if i < j {
      NewestFirstOrdersAll(s, i, j - 1);
    }
  }

  /** `where: { shop }`: the shop's rows, in stored order. */
  function OfShop(rows: seq<Popup>, shop: string): (r: seq<Popup>)
    ensures forall p :: p in r <==> p in rows && p.shop == shop
    ensures |r| <= |rows|
    ensures forall p :: multiset(r)[p] == if p.shop == shop then multiset(rows)[p] else 0
  {
    if rows == [] then []
    else
      assert rows == [rows[0]] + rows[1..];
      (if rows[0].shop == shop then [rows[0]] else []) + OfShop(rows[1..], shop)
  }

  /** Places `p` into a newest-first sequence; the head of the result is `p`
      or the old head. */
  function InsertNewestFirst(p: Popup, s: seq<Popup>): (r: seq<Popup>)
    requires NewestFirst(s)
    ensures |r| == |s| + 1
    ensures r[0] == p || (s != [] && r[0] == s[0])
    ensures NewestFirst(r)
    ensures multiset(r) == multiset(s) + multiset{p}
  {
    if s == [] || p.updatedAt >= s[0].updatedAt then [p] + s
    else
      var rest := InsertNewestFirst(p, s[1..]);
      assert s == [s[0]] + s[1..];
      [s[0]] + rest
  }

  /** `orderBy: { updatedAt: "desc" }`. */
  function SortNewestFirst(s: seq<Popup>): (r: seq<Popup>)
    ensures NewestFirst(r)
    ensures multiset(r) == multiset(s)
  {
    if s == [] then []
    else
      assert s == [s[0]] + s[1..];
      InsertNewestFirst(s[0], SortNewestFirst(s[1..]))
  }

  /** The loader: exactly the shop's popups, each as often as stored, most
      recently saved first. */
  function Loader(rows: seq<Popup>, shop: string): (r: seq<Popup>)
    ensures NewestFirst(r)
    ensures multiset(r) == multiset(OfShop(rows, shop))
    ensures forall p :: p in r <==> p in rows && p.shop == shop
  {
    var r := SortNewestFirst(OfShop(rows, shop));
    assert forall p :: p in r <==> p in multiset(r);
    r
  }

  /** A popup created for a shop shows up in that shop's list. */
  lemma CreatedPopupIsListed(rows: seq<Popup>, shop: string, name: string, a: NewPopupRoute.Assigned)
    ensures NewPopupRoute.NewPopup(shop, name, a) in Loader(rows + [NewPopupRoute.NewPopup(shop, name, a)], shop)
  {
  }

  /** No shop sees another shop's popups. */
  lemma LoaderIsolatesShops(rows: seq<Popup>, shop: string, other: string, p: Popup)
    requires p in Loader(rows, other) && other != shop
    ensures p !in Loader(rows, shop)
  {
  }

  /** The form the list page posts. Each field is absent or text. */
  datatype ActionForm = ActionForm(action: Option<string>, popupId: Option<string>, isActive: Option<string>)

  /** `json({ success })`, or the error the framework answers with when the
      store throws. */
  datatype ActionResponse = Json(success: bool) | ServerError

  /** The value written for a submitted `isActive`: the opposite of
      `isActive === "true"`. */
  function NewActive(submitted: Option<string>): (active: bool)
    ensures active <==> submitted != Some("true")
  {
    !(submitted == Some("true"))
  }

  /** The route's `action`, after authentication, for the session's shop. */
  method Action(db: PopupTable, shop: string, form: ActionForm) returns (r: ActionResponse)
    requires db.Valid()
    modifies db
    ensures db.Valid()
    ensures form.action != Some("toggle") ==> r == Json(false) && db.rows == old(db.rows)
    ensures form.action == Some("toggle") && form.popupId.None? ==> r == ServerError && db.rows == old(db.rows)
    ensures form.action == Some("toggle") && form.popupId.Some? ==>
              && db.rows == WithActive(old(db.rows), form.popupId.value, shop, NewActive(form.isActive))
              && (r == Json(true) <==> HasKey(old(db.rows), form.popupId.value, shop))
              && (r == Json(true) || r == ServerError)
  {
    if form.action == Some("toggle") {
      if form.popupId.None? {
        return ServerError;
      }
      var found := db.SetActive(form.popupId.value, shop, NewActive(form.isActive));
      r := if found then Json(true) else ServerError;
    } else {
      r := Json(false);
    }
  }

  /** The form a row's ON/OFF button posts: the popup's id and its current
      state as `isActive.toString()`. */
  function ToggleForm(p: Popup): (f: ActionForm)
    ensures f.action == Some("toggle") && f.popupId == Some(p.id)
    ensures NewActive(f.isActive) == !p.isActive
  {
    ActionForm(Some("toggle"), Some(p.id), Some(if p.isActive then "true" else "false"))
  }

  /** Pressing a row's button flips that popup and leaves every other row as
      it was. */
  lemma ToggleFormFlips(rows: seq<Popup>, shop: string, k: nat)
    requires UniqueIds(rows) && k < |rows| && rows[k].shop == shop
    ensures var f := ToggleForm(rows[k]);
      var r := WithActive(rows, f.popupId.value, shop, NewActive(f.isActive));
      && r[k] == rows[k].(isActive := !rows[k].isActive)
      && forall i :: 0 <= i < |rows| && i != k ==> r[i] == rows[i]
  {
    WithActiveTouchesOne(rows, k, !rows[k].isActive);
  }

  /** One line of the table. */
  datatype Row = Row(name: string, status: string, editorUrl: string, toggle: ActionForm)

  function RowOf(p: Popup): (row: Row)
    ensures row.status == (if p.isActive then "ON" else "OFF")
    ensures row.editorUrl == NewPopupRoute.EditorUrl(p.id)
    ensures row.toggle == ToggleForm(p)
  {
    Row(p.name, if p.isActive then "ON" else "OFF", NewPopupRoute.EditorUrl(p.id), ToggleForm(p))
  }

  /** `Showing N popup` with an `s` unless N is 1: the footer ends in
      "popups" exactly when the count is not 1. */
  function FooterText(count: nat): (t: string)
    ensures |t| == 8 + |NatToString(count)| + (if count == 1 then 6 else 7)
    ensures |t| > 14 && t[..8] == "Showing "
    ensures t[8..8 + |NatToString(count)|] == NatToString(count)
    ensures t[8 + |NatToString(count)|..] == if count == 1 then " popup" else " popups"
    ensures t[|t| - 1] == 's' <==> count != 1
  {
    var n, noun := NatToString(count), if count == 1 then " popup" else " popups";
    var t := "Showing " + n + noun;
    assert t[8..8 + |n|] == n && t[8 + |n|..] == noun;
    t
  }

  /** The footer states the count: different counts give different footers. */
  lemma FooterTextInjective(m: nat, n: nat)
    requires FooterText(m) == FooterText(n)
    ensures m == n
  {
    var a, b := NatToString(m), NatToString(n);
    var t := FooterText(m);
    assert t == "Showing " + a + " popup" + (if m != 1 then "s" else "");
    assert t == "Showing " + b + " popup" + (if n != 1 then "s" else "");
    assert |a| == |b|;
    assert a == t[8..8 + |a|] == b;
    NatToStringInjective(m, n);
  }

  /** What the card shows: the empty state, or the table and its footer. */
  datatype ListView = EmptyState | Table(rows: seq<Row>, footer: string)

  function ListViewOf(popups: seq<Popup>): (v: ListView)
    ensures v.EmptyState? <==> |popups| == 0
    ensures v.Table? ==> |v.rows| == |popups| && v.footer == FooterText(|popups|)
    ensures v.Table? ==> forall i :: 0 <= i < |popups| ==> v.rows[i] == RowOf(popups[i])
  {
    if |popups| == 0 then EmptyState
    else Table(seq(|popups|, i requires 0 <= i < |popups| => RowOf(popups[i])), FooterText(|popups|))
  }
}
