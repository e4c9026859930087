/** The popup table the routes read and write. Every access is scoped to a
    `(id, shop)` pair or to a shop; rows are kept in insertion order and ids
    are unique. */
module PopupStore {

  /** A button of the legacy top-level list stored with a popup. */
  datatype Button = Button(id: string, text: string, action: string, style: string)

  /** One stored popup: the columns the list page and the creation route read
      or write. */
  datatype Popup = Popup(
    id: string,
    shop: string,
    name: string,
    heading: string,
    description: string,
    emailPlaceholder: string,
    customButtons: seq<Button>,
    footerText: string,
    discountType: string,
    discountValue: int,
    enablePhoneField: bool,
    phoneRequired: bool,
    phonePlaceholder: string,
    isActive: bool,
    createdAt: int,
    updatedAt: int)

  predicate UniqueIds(rows: seq<Popup>) {
    forall i, j :: 0 <= i < j < |rows| ==> rows[i].id != rows[j].id
  }

  predicate HasId(rows: seq<Popup>, id: string) {
    exists i :: 0 <= i < |rows| && rows[i].id == id
  }

  /** The row is the one `where: { id, shop }` selects. */
  predicate Selects(p: Popup, id: string, shop: string) {
    p.id == id && p.shop == shop
  }

  predicate HasKey(rows: seq<Popup>, id: string, shop: string) {
    exists i :: 0 <= i < |rows| && Selects(rows[i], id, shop)
  }

  /** The rows after `update({ where: { id, shop }, data: { isActive } })`. */
  function WithActive(rows: seq<Popup>, id: string, shop: string, active: bool): (r: seq<Popup>)
    ensures |r| == |rows|
    ensures forall i :: 0 <= i < |rows| && Selects(rows[i], id, shop) ==> r[i] == rows[i].(isActive := active)
    ensures forall i :: 0 <= i < |rows| && !Selects(rows[i], id, shop) ==> r[i] == rows[i]
  {
    seq(|rows|, i requires 0 <= i < |rows| =>
      if Selects(rows[i], id, shop) then rows[i].(isActive := active) else rows[i])
  }

  /** With unique ids an update selects at most one row: the row at `k`
      changes its `isActive` and nothing else, every other row stays. */
  lemma WithActiveTouchesOne(rows: seq<Popup>, k: nat, active: bool)
    requires UniqueIds(rows) && k < |rows|
    ensures var r := WithActive(rows, rows[k].id, rows[k].shop, active);
      && r[k] == rows[k].(isActive := active)
      && forall i :: 0 <= i < |rows| && i != k ==> r[i] == rows[i]
  {
    var r := WithActive(rows, rows[k].id, rows[k].shop, active);
    forall i | 0 <= i < |rows| && i != k ensures r[i] == rows[i] {
      if i < k { assert rows[i].id != rows[k].id; } else { assert rows[k].id != rows[i].id; }
    }
  }

  class PopupTable {
    var rows: seq<Popup>

    ghost predicate Valid()
      reads this
    {
      UniqueIds(rows)
    }

    constructor ()
      ensures Valid() && rows == []
    {
      rows := [];
    }

    /** `db.popup.create`: the row is added unless its id is taken, in which
        case the store refuses the write and nothing changes. */
    method Create(p: Popup) returns (created: bool)
      requires Valid()
      modifies this
      ensures Valid()
      ensures created == !HasId(old(rows), p.id)
      ensures rows == if created then old(rows) + [p] else old(rows)
    {
      created := !HasId(rows, p.id);
      if created {
        rows := rows + [p];
      }
    }

    /** `db.popup.update({ where: { id, shop }, data: { isActive } })`: it
        fails (the store throws) when no row has that id and shop. */
    method SetActive(id: string, shop: string, active: bool) returns (found: bool)
      requires Valid()
      modifies this
      ensures Valid()
      ensures found == HasKey(old(rows), id, shop)
      ensures rows == WithActive(old(rows), id, shop, active)
      ensures !found ==> rows == old(rows)
    {
      found := HasKey(rows, id, shop);
      var before := rows;
      rows := WithActive(rows, id, shop, active);
      if !found {
        assert forall i :: 0 <= i < |before| ==> rows[i] == before[i];
      }
    }
  }
}
