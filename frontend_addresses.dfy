/** The storefront's delivery-address page: the form state (`formData`, `editingId`,
    `showForm`) and its handlers: open a new form, submit, edit, cancel, reset, change
    and delete. */
module AddressForm {
  import opened Wrappers
  import opened ClientApi

  datatype DeliveryAddress = DeliveryAddress(
    id: string,
    firstName: string,
    lastName: string,
    street: string,
    city: string,
    postalCode: string,
    country: string,
    phone: Option<string>,
    isDefault: bool)

  /** A form value: the text of an input or the state of a checkbox. */
  datatype FormValue = Text(text: string) | Flag(checked: bool)

  /** `formData`, keyed by the inputs' `name` attributes. */
  type FormData = map<string, FormValue>

  const TextFields: set<string> := {"firstName", "lastName", "street", "city", "postalCode", "country", "phone"}

  const DefaultCountry := "Czech Republic"

  /** The blank form `resetForm` sets (and the page starts with). */
  function EmptyForm(): (f: FormData)
    ensures f.Keys == TextFields + {"isDefault"}
    ensures f["country"] == Text(DefaultCountry) && f["isDefault"] == Flag(false)
    ensures forall k :: k in TextFields && k != "country" ==> f[k] == Text("")
  {
    map["firstName" := Text(""), "lastName" := Text(""), "street" := Text(""), "city" := Text(""),
        "postalCode" := Text(""), "country" := Text(DefaultCountry), "phone" := Text(""),
        "isDefault" := Flag(false)]
  }

  /** `address.phone || ''`. */
  function PhoneText(phone: Option<string>): (r: string)
    ensures phone.Some? ==> r == phone.value
    ensures phone.None? ==> r == ""
  {
    if phone.Some? then phone.value else ""
  }

  /** The form `handleEdit` fills from an address. */
  function FormFromAddress(a: DeliveryAddress): (f: FormData)
    ensures f.Keys == TextFields + {"isDefault"}
    ensures f["firstName"] == Text(a.firstName) && f["lastName"] == Text(a.lastName)
    ensures f["street"] == Text(a.street) && f["city"] == Text(a.city)
    ensures f["postalCode"] == Text(a.postalCode) && f["country"] == Text(a.country)
    ensures f["phone"] == Text(PhoneText(a.phone)) && f["isDefault"] == Flag(a.isDefault)
  {
    map["firstName" := Text(a.firstName), "lastName" := Text(a.lastName), "street" := Text(a.street),
        "city" := Text(a.city), "postalCode" := Text(a.postalCode), "country" := Text(a.country),
        "phone" := Text(PhoneText(a.phone)), "isDefault" := Flag(a.isDefault)]
  }

  /** `{...formData, [name]: type === 'checkbox' ? checked : value}`. */
  function Changed(form: FormData, name: string, inputType: string, value: string, checked: bool): (f: FormData)
    ensures f.Keys == form.Keys + {name}
    ensures f[name] == if inputType == "checkbox" then Flag(checked) else Text(value)
    ensures forall k :: k in form && k != name ==> f[k] == form[k]
  {
    form[name := if inputType == "checkbox" then Flag(checked) else Text(value)]
  }

  /** Changing a field twice keeps only the second change. */
  lemma LastChangeWins(form: FormData, name: string, t1: string, v1: string, c1: bool, t2: string, v2: string, c2: bool)
    ensures Changed(Changed(form, name, t1, v1, c1), name, t2, v2, c2) == Changed(form, name, t2, v2, c2)
  {
  }

  /** The requests the page makes to the addresses API. */
  datatype AddressCall =
    | GetAddresses
    | CreateAddress(data: FormData)
    | UpdateAddress(id: string, data: FormData)
    | DeleteAddress(id: string)

  /** `if (editingId)`: an id that is set and not empty. */
  predicate Editing(editingId: Option<string>) {
    editingId.Some? && editingId.value != ""
  }

  /** The request `handleSubmit` makes. */
  function SubmitCall(editingId: Option<string>, form: FormData): (r: AddressCall)
    ensures Editing(editingId) <==> r.UpdateAddress?
    ensures r.UpdateAddress? ==> r == UpdateAddress(editingId.value, form)
    ensures r.CreateAddress? ==> r == CreateAddress(form)
    ensures r.UpdateAddress? || r.CreateAddress?
  {
    if Editing(editingId) then UpdateAddress(editingId.value, form) else CreateAddress(form)
  }

  /** Submitting right after editing an address updates that very address with the
      fields it had. */
  lemma EditThenSubmitUpdates(a: DeliveryAddress)
    requires a.id != ""
    ensures SubmitCall(Some(a.id), FormFromAddress(a)) == UpdateAddress(a.id, FormFromAddress(a))
  {
  }

  const SaveFailedAlert := "Nepodařilo se uložit adresu"
  const DeleteFailedAlert := "Nepodařilo se smazat adresu"

  class AddressesPage {
    var addresses: seq<DeliveryAddress>
    var loading: bool
    var showForm: bool
    var editingId: Option<string>
    var formData: FormData
    var calls: seq<AddressCall>
    var alerts: seq<string>

    constructor()
      ensures addresses == [] && loading && !showForm && editingId.None? && formData == EmptyForm()
      ensures calls == [] && alerts == []
    {
      addresses := [];
      loading := true;
      showForm := false;
      editingId := None;
      formData := EmptyForm();
      calls := [];
      alerts := [];
    }

    /** `loadAddresses`. */
    method LoadAddresses(response: Response<seq<DeliveryAddress>>)
      modifies this
      ensures calls == old(calls) + [GetAddresses]
      ensures addresses == if Payload(response).Some? then Payload(response).value else old(addresses)
      ensures !loading
      ensures showForm == old(showForm) && editingId == old(editingId) && formData == old(formData)
      ensures alerts == old(alerts)
    {
      calls := calls + [GetAddresses];
      var data := Payload(response);
      if data.Some? {
        addresses := data.value;
      }
      loading := false;
    }

    /** `resetForm`. */
    method ResetForm()
      modifies this
      ensures formData == EmptyForm()
      ensures addresses == old(addresses) && loading == old(loading) && showForm == old(showForm)
      ensures editingId == old(editingId) && calls == old(calls) && alerts == old(alerts)
    {
      formData := EmptyForm();
    }

    /** The "add address" button: an empty form for a new address, shown. */
    method OpenNewForm()
      modifies this
      ensures formData == EmptyForm() && editingId.None? && showForm
      ensures addresses == old(addresses) && loading == old(loading)
      ensures calls == old(calls) && alerts == old(alerts)
    {
      ResetForm();
      editingId := None;
      showForm := true;
    }

    /** The form's cancel button: the form is hidden, nothing is being edited and
        the fields are emptied; nothing is sent. */
    method CancelForm()
      modifies this
      ensures !showForm && editingId.None? && formData == EmptyForm()
      ensures addresses == old(addresses) && loading == old(loading)
      ensures calls == old(calls) && alerts == old(alerts)
    {
      showForm := false;
      editingId := None;
      ResetForm();
    }

    /** `handleSubmit`: update when editing, create otherwise; a save that succeeded
        closes and resets the form and reloads the list, a failed one only alerts. */
    method HandleSubmit(saved: bool, reload: Response<seq<DeliveryAddress>>)
      modifies this
      ensures saved ==> calls == old(calls) + [SubmitCall(old(editingId), old(formData)), GetAddresses]
      ensures saved ==> !showForm && editingId.None? && formData == EmptyForm() && alerts == old(alerts)
      ensures saved ==> addresses == if Payload(reload).Some? then Payload(reload).value else old(addresses)
      ensures !saved ==> calls == old(calls) + [SubmitCall(old(editingId), old(formData))]
      ensures !saved ==> alerts == old(alerts) + [SaveFailedAlert]
      ensures !saved ==> showForm == old(showForm) && editingId == old(editingId) && formData == old(formData)
      ensures !saved ==> addresses == old(addresses)
    {
      calls := calls + [SubmitCall(editingId, formData)];
      if !saved {
        alerts := alerts + [SaveFailedAlert];
        return;
      }
      showForm := false;
      editingId := None;
      ResetForm();
      LoadAddresses(reload);
    }

    /** `handleEdit`: fill the form from the address and open it for that id. */
    method HandleEdit(address: DeliveryAddress)
      modifies this
      ensures formData == FormFromAddress(address) && editingId == Some(address.id) && showForm
      ensures addresses == old(addresses) && loading == old(loading) && calls == old(calls) && alerts == old(alerts)
    {
      formData := FormFromAddress(address);
      editingId := Some(address.id);
      showForm := true;
    }

    /** `handleChange` for the input called `name`. */
    method HandleChange(name: string, inputType: string, value: string, checked: bool)
      modifies this
      ensures formData == Changed(old(formData), name, inputType, value, checked)
      ensures addresses == old(addresses) && loading == old(loading) && showForm == old(showForm)
      ensures editingId == old(editingId) && calls == old(calls) && alerts == old(alerts)
    {
      formData := Changed(formData, name, inputType, value, checked);
    }

    /** `handleDelete`: nothing happens unless the confirmation dialog says yes. */
    method HandleDelete(id: string, confirmed: bool, deleted: bool, reload: Response<seq<DeliveryAddress>>)
      modifies this
      ensures !confirmed ==> calls == old(calls) && alerts == old(alerts) && addresses == old(addresses)
      ensures confirmed && deleted ==> calls == old(calls) + [DeleteAddress(id), GetAddresses] && alerts == old(alerts)
      ensures confirmed && deleted ==> addresses == if Payload(reload).Some? then Payload(reload).value else old(addresses)
      ensures confirmed && !deleted ==> calls == old(calls) + [DeleteAddress(id)]
      ensures confirmed && !deleted ==> alerts == old(alerts) + [DeleteFailedAlert] && addresses == old(addresses)
      ensures showForm == old(showForm) && editingId == old(editingId) && formData == old(formData)
    {
      if !confirmed {
        return;
      }
      calls := calls + [DeleteAddress(id)];
      if !deleted {
        alerts := alerts + [DeleteFailedAlert];
        return;
      }
      LoadAddresses(reload);
    }
  }
}
