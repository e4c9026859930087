/** The "new popup" route: a name is required; a popup is then created for
    the merchant's shop with fixed starting content and one default button,
    and the merchant is sent to its editor. */
module NewPopupRoute {
  import opened Common
  import opened PopupStore

  /** What the store fills in on creation: the new id, the creation time and
      the schema's default for `isActive`. */
  datatype Assigned = Assigned(id: string, now: int, isActive: bool)

  datatype Response = Redirect(location: string) | JsonError(status: nat, error: string)

  const NameRequiredError := "Popup name is required"
  const CreateFailedError := "Failed to create popup"

  const DefaultButton := Button("default", "Join Now", "close_popup", "outline")

  /** `name?.trim()` is truthy: the field is present and not blank. */
  predicate HasName(name: Option<string>) {
    name.Some? && Trim(name.value) != ""
  }

  /** A name is refused exactly when it is missing or all white space. */
  lemma HasNameIffNotBlank(name: Option<string>)
    ensures HasName(name) <==> name.Some? && !IsBlank(name.value)
  {
    if name.Some? {
      StripEmptyIffAllIn(name.value, Whitespace);
    }
  }

  /** The record `db.popup.create` is given, completed with what the store
      assigns. */
  function NewPopup(shop: string, name: string, a: Assigned): (p: Popup)
    ensures p.id == a.id && p.shop == shop && p.name == Trim(name)
    ensures p.customButtons == [DefaultButton] && p.customButtons[0].action == "close_popup"
    ensures p.discountType == "percentage" && p.discountValue == 10
    ensures !p.enablePhoneField && !p.phoneRequired
    ensures p.createdAt == p.updatedAt == a.now && p.isActive == a.isActive
    ensures p.heading == "Get 10% OFF your order"
    ensures p.description == "Sign up and unlock your instant discount."
    ensures p.emailPlaceholder == "Email address" && p.phonePlaceholder == "Phone number"
    ensures p.footerText == "You are signing up to receive communication via email and can unsubscribe at any time."
  {
    Popup(
      id := a.id,
      shop := shop,
      name := Trim(name),
      heading := "Get 10% OFF your order",
      description := "Sign up and unlock your instant discount.",
      emailPlaceholder := "Email address",
      customButtons := [DefaultButton],
      footerText := "You are signing up to receive communication via email and can unsubscribe at any time.",
      discountType := "percentage",
      discountValue := 10,
      enablePhoneField := false,
      phoneRequired := false,
      phonePlaceholder := "Phone number",
      isActive := a.isActive,
      createdAt := a.now,
      updatedAt := a.now)
  }

  function EditorUrl(id: string): (url: string)
    ensures |url| >= 11 && url[..11] == "/app/popup/" && url[11..] == id
  {
    "/app/popup/" + id
  }

  /** The route's `action`, after authentication, for the session's shop. */
  method Action(db: PopupTable, shop: string, name: Option<string>, a: Assigned) returns (r: Response)
    requires db.Valid()
    modifies db
    ensures db.Valid()
    ensures !HasName(name) ==> r == JsonError(400, NameRequiredError) && db.rows == old(db.rows)
    ensures HasName(name) && !HasId(old(db.rows), a.id) ==>
              r == Redirect(EditorUrl(a.id)) && db.rows == old(db.rows) + [NewPopup(shop, name.value, a)]
    ensures HasName(name) && HasId(old(db.rows), a.id) ==>
              r == JsonError(500, CreateFailedError) && db.rows == old(db.rows)
  {
    if !HasName(name) {
      return JsonError(400, NameRequiredError);
    }
    var created := db.Create(NewPopup(shop, name.value, a));
    if created {
      r := Redirect(EditorUrl(a.id));
    } else {
      r := JsonError(500, CreateFailedError);
    }
  }
}
