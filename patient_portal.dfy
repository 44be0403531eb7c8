/**
 * The patient portal (src/components/PatientPortal.jsx). While a user is present it listens
 * to `patients/{uid}/consultations` ordered by `date`, newest first, and replaces its list
 * with the projection of every snapshot. It shows the profile handed down by the session
 * resolver, with fallbacks for missing fields.
 */
module PatientPortal {
  import opened Firestore
  import CreateProfile

  function ConsultationsCollection(uid: string): Path { ["patients", uid, "consultations"] }

  /** The query the component subscribes to: the patient's consultations, newest `date` first. */
  function ConsultationsQuery(uid: string): (q: Query)
    ensures q.collection == ["patients", uid, "consultations"]
    ensures q.orderBy == "date" && q.descending
  {
    Query(ConsultationsCollection(uid), "date", true)
  }

  /** Two patients never share a listener query, so one patient's snapshots cannot reach the other's. */
  lemma PatientsHaveDistinctQueries(uid: string, other: string)
    requires uid != other
    ensures ConsultationsQuery(uid) != ConsultationsQuery(other)
  {
    assert ConsultationsQuery(uid).collection[1] != ConsultationsQuery(other).collection[1];
  }

  /** `value || fallback` as rendered: the value when truthy, the fallback text otherwise. */
  function OrElse(v: Option<Value>, fallback: string): (r: Value)
    ensures Truthy(v) ==> Some(r) == v
    ensures !Truthy(v) ==> r == Str(fallback)
  {
    if Truthy(v) then v.value else Str(fallback)
  }

  /** `profile?.name || 'N/A'` and `profile?.medboxId || 'N/A'`, for `field` the name shown. */
  function ProfileField(profile: Option<Doc>, field: string): (r: Value)
    ensures Truthy(Some(r))
    ensures Truthy(Field(profile, field)) ==> r == profile.value[field]
    ensures !Truthy(Field(profile, field)) ==> r == Str("N/A")
  {
    OrElse(Field(profile, field), "N/A")
  }

  /** `consult.doctorName || 'Unknown'`. */
  function DoctorName(consult: Doc): (r: Value)
    ensures Truthy(Some(r))
    ensures "doctorName" in consult && Truthy(Some(consult["doctorName"])) ==> r == consult["doctorName"]
    ensures !("doctorName" in consult && Truthy(Some(consult["doctorName"]))) ==> r == Str("Unknown")
  {
    OrElse(Field(Some(consult), "doctorName"), "Unknown")
  }

  /** The consultation history block: the empty state or one item per consultation. */
  datatype History = EmptyState | Items(consultations: seq<Doc>)

  function HistoryView(consultations: seq<Doc>): (h: History)
    ensures h.EmptyState? <==> |consultations| == 0
    ensures h.Items? ==> h.consultations == consultations
  {
    if |consultations| == 0 then EmptyState else Items(consultations)
  }

  /** A displayed field is never blank: a missing, null or empty value shows its fallback. */
  lemma DisplayedFieldsNeverBlank(profile: Option<Doc>, consult: Doc)
    ensures Truthy(Some(ProfileField(profile, "name")))
    ensures Truthy(Some(ProfileField(profile, "medboxId")))
    ensures Truthy(Some(DoctorName(consult)))
    ensures profile.None? ==> ProfileField(profile, "name") == ProfileField(profile, "medboxId") == Str("N/A")
    ensures "doctorName" !in consult ==> DoctorName(consult) == Str("Unknown")
  {
  }

  /**
   * The profile that onboarding writes is shown as entered: its name (when not empty) and
   * its generated MedBox id, which is never empty.
   */
  lemma OnboardedProfileShown(name: string, base36: string)
    ensures var profile := Some(CreateProfile.UserDoc(name, CreateProfile.MedboxId(base36)));
      && ProfileField(profile, "medboxId") == Str(CreateProfile.MedboxId(base36))
      && ProfileField(profile, "name") == if name == "" then Str("N/A") else Str(name)
  {
    var id := CreateProfile.MedboxId(base36);
    assert id != "";
  }

  /**
   * A snapshot shows the empty state exactly when it has no documents; otherwise one item per
   * document, in snapshot order, each identified by its document id.
   */
  lemma SnapshotHistory(snap: seq<DocSnapshot>)
    ensures HistoryView(Materialize(snap)).EmptyState? <==> snap == []
    ensures HistoryView(Materialize(snap)).Items? ==>
      var items := HistoryView(Materialize(snap)).consultations;
      |items| == |snap| && forall i :: 0 <= i < |snap| ==> items[i]["id"] == Str(snap[i].id)
  {
  }

  /** The component's state; `profile` is the resolved profile passed down by the root. */
  class PatientPortal {
    var user: Option<User>
    const profile: Option<Doc>
    var consultations: seq<Doc>
    /** The query of the open listener, if one is open. */
    var subscription: Option<Query>

    /** A listener is open exactly while there is a user, and it listens to that user's history. */
    predicate Valid()
      reads this
    {
      subscription == if user.Some? then Some(ConsultationsQuery(user.value.uid)) else None
    }

    /** Mounting: an empty list, then the effect opens the listener when `user` is present. */
    constructor (user: Option<User>, profile: Option<Doc>)
      ensures Valid()
      ensures this.user == user && this.profile == profile && consultations == []
    {
      this.user := user;
      this.profile := profile;
      consultations := [];
      subscription := if user.Some? then Some(ConsultationsQuery(user.value.uid)) else None;
    }

    /** A new `user` prop: the returned unsubscribe runs, then a listener opens for the new user. */
    method ChangeUser(u: Option<User>)
      modifies this`user, this`subscription
      ensures Valid() && user == u
    {
      subscription := None;
      user := u;
      if u.Some? {
        subscription := Some(ConsultationsQuery(u.value.uid));
      }
    }

    /** Unmounting runs the returned unsubscribe. */
    method Unmount()
      modifies this`subscription
      ensures subscription.None?
    {
      subscription := None;
    }

    /**
     * The listener's callback, run by the store for the open listener's query `q` with a
     * snapshot `snap` of the (ghost) store contents: the list becomes the projection of the
     * snapshot's documents, each a consultation of the current user.
     */
    method OnSnapshot(q: Query, ghost store: Store, snap: seq<DocSnapshot>)
      requires Valid() && subscription == Some(q)
      requires IsSnapshotOf(store, q, snap)
      modifies this`consultations
      ensures user.Some?
      ensures consultations == Materialize(snap)
      ensures forall i :: 0 <= i < |consultations| ==>
        && consultations[i]["id"] == Str(snap[i].id)
        && Get(store, ConsultationsCollection(user.value.uid) + [snap[i].id]) == Some(snap[i].data)
    {
      consultations := Materialize(snap);
    }

    /** What the history block shows now. */
    function History(): History
      reads this
    {
      HistoryView(consultations)
    }
  }
}
