/** The admin's doctor table: it creates, edits and deletes doctors through a
    dialog form. */
module DoctorManagement {
  import opened Wrappers
  import opened Text
  import opened Types
  import opened Lists
  import Initials

  /** The dialog's fields; the image is a file the form may hold. */
  datatype DoctorForm = DoctorForm(name: string, specialty: string, fee: string, bio: string, hasImage: bool)

  const EmptyForm := DoctorForm("", "", "", "", false)

  /** The call `handleSubmit` makes: an update of the doctor with `id`, or a
      create when there is none. */
  datatype DoctorRequest = DoctorRequest(id: Option<string>, data: DoctorForm)

  /** The list after a successful update: entries with the id become the server's
      doctor, every other entry and the length unchanged. */
  function ReplaceDoctor(doctors: seq<Doctor>, id: string, updated: Doctor): (r: seq<Doctor>)
    ensures |r| == |doctors|
    ensures forall i :: 0 <= i < |doctors| ==> (doctors[i].id == id ==> r[i] == updated) && (doctors[i].id != id ==> r[i] == doctors[i])
  {
    MapWhere(doctors, (d: Doctor) => d.id == id, (d: Doctor) => updated)
  }

  /** When the server keeps the id, an update leaves the ids in their order, and
      a list without the id is left as it is. */
  lemma ReplaceKeepsIds(doctors: seq<Doctor>, id: string, updated: Doctor)
    requires updated.id == id
    ensures var r := ReplaceDoctor(doctors, id, updated);
      forall i :: 0 <= i < |doctors| ==> r[i].id == doctors[i].id
    ensures (forall i :: 0 <= i < |doctors| ==> doctors[i].id != id) ==> ReplaceDoctor(doctors, id, updated) == doctors
  {
  }

  function OtherId(id: string): Doctor -> bool
  {
    (d: Doctor) => d.id != id
  }

  /** The list after a successful delete: the doctors with another id, in order. */
  function RemoveDoctor(doctors: seq<Doctor>, id: string): (r: seq<Doctor>)
    ensures forall d :: d in r <==> d in doctors && d.id != id
  {
    Filter(doctors, OtherId(id))
  }

  /** A delete keeps the other doctors in their order and removes as many
      entries as carry the id. */
  lemma RemoveExactly(doctors: seq<Doctor>, id: string)
    ensures |RemoveDoctor(doctors, id)| + |Filter(doctors, (d: Doctor) => d.id == id)| == |doctors|
    ensures Subsequence(RemoveDoctor(doctors, id), doctors)
  {
    FilterPartition(doctors, OtherId(id), (d: Doctor) => d.id == id);
    FilterSubsequence(doctors, OtherId(id));
  }

  /** `getInitials` of the doctor table: the common initials, "DR" for an empty
      name. */
  function DoctorInitials(name: string): (r: string)
    ensures name == "" ==> r == "DR"
    ensures name != "" ==> |r| <= 2
    ensures r == Initials.Initials(name, "DR")
  {
    Initials.Initials(name, "DR")
  }

  class Page {
    var doctors: seq<Doctor>
    var isLoading: bool
    var isDialogOpen: bool
    var editingDoctor: Option<Doctor>
    var formData: DoctorForm
    /** The last `alert` shown, if any. */
    var alert: Option<string>

    constructor ()
      ensures doctors == [] && isLoading && !isDialogOpen && editingDoctor.None? && formData == EmptyForm && alert.None?
    {
      doctors := [];
      isLoading := true;
      isDialogOpen := false;
      editingDoctor := None;
      formData := EmptyForm;
      alert := None;
    }

    /** `fetchDoctors`: a successful reply with data replaces the list; loading
        ends either way. */
    method FetchDoctors(response: ApiResponse<seq<Doctor>>)
      modifies this`doctors, this`isLoading
      ensures response.success && response.data.Some? ==> doctors == response.data.value
      ensures !(response.success && response.data.Some?) ==> doctors == old(doctors)
      ensures !isLoading
    {
      if response.success && response.data.Some? {
        doctors := response.data.value;
      }
      isLoading := false;
    }

    /** `resetForm`: no doctor being edited and an empty form. */
    method ResetForm()
      modifies this`editingDoctor, this`formData
      ensures editingDoctor.None? && formData == EmptyForm
    {
      editingDoctor := None;
      formData := EmptyForm;
    }

    /** `handleSubmit`: the form is sent as an update of the doctor being edited,
        or as a create. On success the list takes the server's doctor (in place of
        the edited one, or at the end), the form is reset and the dialog closed;
        on failure the error is alerted and the list, the form and the dialog are
        left as they were. */
    method HandleSubmit(response: ApiResponse<Doctor>) returns (sent: DoctorRequest)
      modifies this`doctors, this`editingDoctor, this`formData, this`isDialogOpen, this`alert
      ensures sent == DoctorRequest(if old(editingDoctor).Some? then Some(old(editingDoctor).value.id) else None, old(formData))
      ensures response.success && response.data.Some? ==>
        editingDoctor.None? && formData == EmptyForm && !isDialogOpen && alert == old(alert)
      ensures response.success && response.data.Some? && old(editingDoctor).Some? ==>
        doctors == ReplaceDoctor(old(doctors), old(editingDoctor).value.id, response.data.value)
      ensures response.success && response.data.Some? && old(editingDoctor).None? ==>
        doctors == old(doctors) + [response.data.value]
      ensures !(response.success && response.data.Some?) ==>
        doctors == old(doctors) && editingDoctor == old(editingDoctor) && formData == old(formData) &&
        isDialogOpen == old(isDialogOpen) &&
        alert == Some(OrElse(response.error, if old(editingDoctor).Some? then "Failed to update doctor" else "Failed to create doctor"))
    {
      var data := formData;
      if editingDoctor.Some? {
        var id := editingDoctor.value.id;
        sent := DoctorRequest(Some(id), data);
        if response.success && response.data.Some? {
          doctors := ReplaceDoctor(doctors, id, response.data.value);
        } else {
          alert := Some(OrElse(response.error, "Failed to update doctor"));
          return;
        }
      } else {
        sent := DoctorRequest(None, data);
        if response.success && response.data.Some? {
          doctors := doctors + [response.data.value];
        } else {
          alert := Some(OrElse(response.error, "Failed to create doctor"));
          return;
        }
      }
      ResetForm();
      isDialogOpen := false;
    }

    /** `handleEdit`: the dialog opens on the doctor with the form filled from it;
        the bio is not kept by the backend and starts empty. */
    method HandleEdit(d: Doctor)
      modifies this`editingDoctor, this`formData, this`isDialogOpen
      ensures editingDoctor == Some(d) && isDialogOpen
      ensures formData == DoctorForm(d.name, d.specialty, NatToString(d.consultationFee), "", false)
    {
      editingDoctor := Some(d);
      formData := DoctorForm(d.name, d.specialty, NatToString(d.consultationFee), "", false);
      isDialogOpen := true;
    }

    /** `handleDelete`: only a confirmed delete is sent; success removes the
        doctor's entries and failure alerts, leaving the list. */
    method HandleDelete(id: string, confirmed: bool, response: ApiResponse<bool>) returns (requested: bool)
      modifies this`doctors, this`alert
      ensures requested == confirmed
      ensures confirmed && response.success ==> doctors == RemoveDoctor(old(doctors), id) && alert == old(alert)
      ensures confirmed && !response.success ==>
        doctors == old(doctors) && alert == Some(OrElse(response.error, "Failed to delete doctor"))
      ensures !confirmed ==> doctors == old(doctors) && alert == old(alert)
    {
      if !confirmed {
        return false;
      }
      if response.success {
        doctors := RemoveDoctor(doctors, id);
      } else {
        alert := Some(OrElse(response.error, "Failed to delete doctor"));
      }
      return true;
    }
  }
}
