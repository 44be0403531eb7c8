/**
 * The medication list (src/components/Medbox.jsx). While a user is present the component
 * listens to `medications/{uid}/userMedications` ordered by `createdAt`, newest first, and
 * rebuilds its list from every snapshot. Adding and deleting only talk to the store: the
 * list changes when the next snapshot arrives.
 */
module Medbox {
  import opened Firestore
  import opened JsStrings

  function MedsCollection(uid: string): Path { ["medications", uid, "userMedications"] }

  function MedPath(uid: string, id: string): Path { MedsCollection(uid) + [id] }

  /** The query the component subscribes to: the owner's medications, newest `createdAt` first. */
  function MedsQuery(uid: string): (q: Query)
    ensures q.collection == ["medications", uid, "userMedications"]
    ensures q.orderBy == "createdAt" && q.descending
  {
    Query(MedsCollection(uid), "createdAt", true)
  }

  /** Two owners never share a listener query, so one owner's snapshots cannot reach the other's. */
  lemma OwnersHaveDistinctQueries(uid: string, other: string)
    requires uid != other
    ensures MedsQuery(uid) != MedsQuery(other)
  {
    assert MedsQuery(uid).collection[1] != MedsQuery(other).collection[1];
  }

  /** The document `handleAddMed` writes: the inputs as typed and the submission time. */
  function MedDoc(name: string, dosage: string, now: int): (d: Doc)
    ensures d.Keys == {"name", "dosage", "createdAt"}
    ensures d["name"] == Str(name) && d["dosage"] == Str(dosage) && d["createdAt"] == Time(now)
  {
    map["name" := Str(name), "dosage" := Str(dosage), "createdAt" := Time(now)]
  }

  /** The guard of `handleAddMed`: both trimmed inputs are non-empty. */
  predicate CanAdd(medName: string, medDosage: string)
    ensures CanAdd(medName, medDosage) ==> medName != "" && medDosage != ""
  {
    Trim(medName) != "" && Trim(medDosage) != ""
  }

  /** Adding is refused exactly when one of the inputs is made only of whitespace. */
  lemma CanAddIffNotBlank(medName: string, medDosage: string)
    ensures CanAdd(medName, medDosage) <==> !Blank(medName) && !Blank(medDosage)
  {
    TrimEmptyIffBlank(medName);
    TrimEmptyIffBlank(medDosage);
  }

  /**
   * The loop of the snapshot callback: push `{ ...doc.data(), id: doc.id }` for each
   * document, in snapshot order.
   */
  method CollectMeds(snap: seq<DocSnapshot>) returns (medsData: seq<Doc>)
    ensures medsData == Materialize(snap)
  {
    medsData := [];
    var i := 0;
    while i < |snap|
      invariant 0 <= i <= |snap|
      invariant |medsData| == i
      invariant forall k :: 0 <= k < i ==> medsData[k] == WithId(snap[k])
    {
      medsData := medsData + [WithId(snap[i])];
      i := i + 1;
    }
  }

  /**
   * After an add succeeds, a snapshot of the store holds the new medication exactly once,
   * with the fields as entered and `id` the id the store chose.
   */
  lemma AddedMedicationAppearsOnce(store: Store, uid: string, autoId: string, name: string, dosage: string,
                                   now: int, snap: seq<DocSnapshot>)
    requires IsSnapshotOf(Put(store, MedPath(uid, autoId), MedDoc(name, dosage, now)), MedsQuery(uid), snap)
    ensures exists i :: 0 <= i < |snap| && Materialize(snap)[i] == MedDoc(name, dosage, now)["id" := Str(autoId)]
    ensures forall i, j :: 0 <= i < j < |snap| ==>
      Materialize(snap)[i]["id"] != Str(autoId) || Materialize(snap)[j]["id"] != Str(autoId)
  {
    var after := Put(store, MedPath(uid, autoId), MedDoc(name, dosage, now));
    assert Get(after, MedsCollection(uid) + [autoId]) == Some(MedDoc(name, dosage, now));
    var i :| 0 <= i < |snap| && snap[i].id == autoId;
    assert snap[i].data == MedDoc(name, dosage, now);
    assert Materialize(snap)[i] == MedDoc(name, dosage, now)["id" := Str(autoId)];
  }

  /** Deleting one record leaves every record of every other owner as it was. */
  lemma DeleteSparesOtherOwners(store: Store, uid: string, id: string, other: string, otherId: string)
    requires other != uid
    ensures Get(Remove(store, MedPath(uid, id)), MedPath(other, otherId)) == Get(store, MedPath(other, otherId))
  {
    assert MedPath(other, otherId)[1] != MedPath(uid, id)[1];
  }

  /** The component's state. */
  class Medbox {
    var user: Option<User>
    var meds: seq<Doc>
    var medName: string
    var medDosage: string
    /** The query of the open listener, if one is open. */
    var subscription: Option<Query>

    /** A listener is open exactly while there is a user, and it listens to that user's list. */
    predicate Valid()
      reads this
    {
      subscription == if user.Some? then Some(MedsQuery(user.value.uid)) else None
    }

    /** Mounting: empty state, then the effect opens the listener when `user` is present. */
    constructor (user: Option<User>)
      ensures Valid()
      ensures this.user == user && meds == [] && medName == "" && medDosage == ""
    {
      this.user := user;
      meds, medName, medDosage := [], "", "";
      subscription := if user.Some? then Some(MedsQuery(user.value.uid)) else None;
    }

    /**
     * A new `user` prop: the effect's cleanup releases the old listener and the effect opens
     * one for the new user, if any. The list and the inputs are left as they were.
     */
    method ChangeUser(u: Option<User>)
      modifies this`user, this`subscription
      ensures Valid() && user == u
    {
      subscription := None;
      user := u;
      if u.Some? {
        subscription := Some(MedsQuery(u.value.uid));
      }
    }

    /** Unmounting releases the listener; releasing none is harmless. */
    method Unmount()
      modifies this`subscription
      ensures subscription.None?
    {
      subscription := None;
    }

    /**
     * The listener's callback, run by the store for the open listener's query `q` with a
     * snapshot `snap` of the (ghost) store contents: the list becomes the snapshot's
     * records, never a merge, and every record is a document of the current user's list.
     */
    method OnSnapshot(q: Query, ghost store: Store, snap: seq<DocSnapshot>)
      requires Valid() && subscription == Some(q)
      requires IsSnapshotOf(store, q, snap)
      modifies this`meds
      ensures user.Some?
      ensures meds == Materialize(snap)
      ensures forall i :: 0 <= i < |meds| ==>
        meds[i]["id"] == Str(snap[i].id) && Get(store, MedPath(user.value.uid, snap[i].id)) == Some(snap[i].data)
    {
      var medsData := CollectMeds(snap);
      meds := medsData;
    }

    method ChangeMedName(value: string)
      modifies this`medName
      ensures medName == value
    {
      medName := value;
    }

    method ChangeMedDosage(value: string)
      modifies this`medDosage
      ensures medDosage == value
    {
      medDosage := value;
    }

    /**
     * `handleAddMed`. `now` is the clock, `autoId` the id the store assigns, `fault` the
     * rejection message when the write fails. With no user the handler throws inside its
     * `try` before writing, which the `catch` swallows.
     */
    method HandleAddMed(db: Db, now: int, autoId: string, fault: Option<string>)
      modifies this`medName, this`medDosage, db
      ensures meds == old(meds)
      ensures !CanAdd(old(medName), old(medDosage)) || user.None? ==>
        db.log == old(db.log) && db.docs == old(db.docs)
        && medName == old(medName) && medDosage == old(medDosage)
      ensures CanAdd(old(medName), old(medDosage)) && user.Some? ==>
        && db.log == old(db.log) + [Add(MedsCollection(user.value.uid), MedDoc(old(medName), old(medDosage), now))]
        && (fault.None? ==>
              && db.docs == Put(old(db.docs), MedPath(user.value.uid, autoId), MedDoc(old(medName), old(medDosage), now))
              && medName == "" && medDosage == "")
        && (fault.Some? ==>
              db.docs == old(db.docs) && medName == old(medName) && medDosage == old(medDosage))
    {
      var canAdd := CanAdd(medName, medDosage);
      if !canAdd || user.None? {
        return;
      }
      var uid := user.value.uid;
      var med := MedDoc(medName, medDosage, now);
      var err := db.AddDoc(MedsCollection(uid), med, autoId, fault);
      if err.None? {
        medName, medDosage := "", "";
      }
    }

    /** `handleDeleteMed`: one delete of this user's record `id`. */
    method HandleDeleteMed(db: Db, id: string, fault: Option<string>)
      modifies db
      ensures user.None? ==> db.log == old(db.log) && db.docs == old(db.docs)
      ensures user.Some? ==>
        && db.log == old(db.log) + [Delete(MedPath(user.value.uid, id))]
        && db.docs == if fault.None? then Remove(old(db.docs), MedPath(user.value.uid, id)) else old(db.docs)
    {
      if user.None? {
        return;
      }
      var _ := db.DeleteDoc(MedPath(user.value.uid, id), fault);
    }
  }
}
