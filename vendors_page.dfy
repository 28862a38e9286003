/** The vendors page: the add/edit form, its submit guard, the choice between
    adding and updating, the reset, the edit handler's legacy-name fallback
    and the pages of ten. */
module VendorsPage {
  import opened Seqs
  import opened Records
  import opened Store
  import opened Pagination

  const PAGE_SIZE: nat := 10

  datatype VendorForm = VendorForm(name: string, contactNumber: string)

  /** The page state a submit reads and writes; `editingVendorId` "" is null. */
  datatype VendorsState = VendorsState(form: VendorForm, editingVendorId: string)

  const BLANK := VendorsState(VendorForm("", ""), "")

  datatype Submitted = Submitted(vendors: seq<Vendor>, state: VendorsState)

  /** The update `updateVendor(editingVendorId, formData)` sends. */
  function FormPatch(form: VendorForm): VendorPatch {
    VendorPatch(None, Some(form.name), None, Some(form.contactNumber), None)
  }

  /** The record `addVendor(formData)` receives. */
  function FormRecord(form: VendorForm): Vendor {
    Vendor("", form.name, "", form.contactNumber, 0, 0)
  }

  /** `handleSubmit` followed by the store call it makes. */
  function Submit(vendors: seq<Vendor>, s: VendorsState, newId: string, now: nat): (r: Submitted)
    ensures s.form.name == "" || s.form.contactNumber == "" ==> r == Submitted(vendors, s)
    ensures s.form.name != "" && s.form.contactNumber != "" ==>
      && r.state == BLANK
      && (s.editingVendorId != "" ==>
            && |r.vendors| == |vendors|
            && (forall i :: 0 <= i < |vendors| && vendors[i].id != s.editingVendorId ==> r.vendors[i] == vendors[i])
            && (forall i :: 0 <= i < |vendors| && vendors[i].id == s.editingVendorId ==>
                  r.vendors[i] == vendors[i].(name := s.form.name, contactNumber := s.form.contactNumber, updatedAt := now)))
      && (s.editingVendorId == "" ==>
            r.vendors == vendors + [Vendor(newId, s.form.name, "", s.form.contactNumber, now, 0)])
  {
    if s.form.name == "" || s.form.contactNumber == "" then Submitted(vendors, s)
    else if s.editingVendorId != "" then
      Submitted(UpdateVendors(vendors, s.editingVendorId, FormPatch(s.form), now), BLANK)
    else
      Submitted(vendors + [NewVendor(FormRecord(s.form), newId, now)], BLANK)
  }

  /** `handleEdit`: loads the vendor into the form, the name falling back to
      the legacy alias, and remembers which vendor is being edited. */
  function HandleEdit(v: Vendor): (r: VendorsState)
    ensures r.editingVendorId == v.id
    ensures r.form.contactNumber == v.contactNumber
    ensures v.name != "" ==> r.form.name == v.name
    ensures v.name == "" ==> r.form.name == v.vendorName
  {
    VendorsState(VendorForm(if v.name != "" then v.name else v.vendorName, v.contactNumber), v.id)
  }

  /** Editing a vendor and submitting changes that vendor alone (when ids are
      distinct): it takes the form's name and contact and keeps the rest. */
  lemma EditThenSubmit(vendors: seq<Vendor>, i: nat, form: VendorForm, newId: string, now: nat)
    requires UniqueBy(vendors, VendorIdOf)
    requires i < |vendors| && vendors[i].id != ""
    requires form.name != "" && form.contactNumber != ""
    ensures var r := Submit(vendors, HandleEdit(vendors[i]).(form := form), newId, now);
      && |r.vendors| == |vendors|
      && r.vendors[i] == vendors[i].(name := form.name, contactNumber := form.contactNumber, updatedAt := now)
      && (forall j :: 0 <= j < |vendors| && j != i ==> r.vendors[j] == vendors[j])
      && r.state == BLANK
  {
    forall j | 0 <= j < |vendors| && j != i ensures vendors[j].id != vendors[i].id {
      if j < i {
        assert VendorIdOf(vendors[j]) != VendorIdOf(vendors[i]);
      } else {
        assert VendorIdOf(vendors[i]) != VendorIdOf(vendors[j]);
      }
    }
  }

  /** Opening a legacy vendor that only has the alias and saving it unchanged
      writes the alias into `name`. */
  lemma SavingLegacyVendorFillsName(vendors: seq<Vendor>, i: nat, newId: string, now: nat)
    requires UniqueBy(vendors, VendorIdOf)
    requires i < |vendors| && vendors[i].id != ""
    requires vendors[i].name == "" && vendors[i].vendorName != "" && vendors[i].contactNumber != ""
    ensures Submit(vendors, HandleEdit(vendors[i]), newId, now).vendors[i].name == vendors[i].vendorName
  {
    EditThenSubmit(vendors, i, HandleEdit(vendors[i]).form, newId, now);
  }

  /** The rows shown: the clamped page of vendors. */
  function VisibleVendors(vendors: seq<Vendor>, currentPage: int): (r: seq<Vendor>)
    ensures |r| <= PAGE_SIZE
    ensures forall v :: v in r ==> v in vendors
  {
    Page(vendors, currentPage, PAGE_SIZE)
  }

  /** Adding a vendor makes it the last row of the last page. */
  lemma NewVendorOnLastPage(vendors: seq<Vendor>, s: VendorsState, newId: string, now: nat)
    requires s.form.name != "" && s.form.contactNumber != "" && s.editingVendorId == ""
    ensures var r := Submit(vendors, s, newId, now).vendors;
      var last := TotalPages(|r|, PAGE_SIZE);
      var shown := VisibleVendors(r, last);
      shown != [] && shown[|shown| - 1] == r[|r| - 1] && r[|r| - 1].id == newId
  {
    var r := Submit(vendors, s, newId, now).vendors;
    var last := TotalPages(|r|, PAGE_SIZE);
    PageWindow(r, last, PAGE_SIZE);
    PageStartBounds(|r|, PAGE_SIZE, last);
  }
}
