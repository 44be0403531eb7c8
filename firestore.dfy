/**
 * The document store the application talks to, abstracted to what its components rely on:
 * documents are field maps, the store maps document paths to documents, and every call the
 * components issue (read, write, add, delete) is recorded so that "no request was issued"
 * and "exactly this request was issued" can be stated. Rejections of a call (network,
 * permission) are a parameter of each call: `Some(message)` makes the call fail.
 */
module Firestore {

  datatype Option<T> = None | Some(value: T)

  datatype Result<T> = Success(value: T) | Failure(error: string)

  /** A field value. `Time` is a timestamp in milliseconds; `Obj` a nested map. */
  datatype Value =
    | Null
    | Bool(b: bool)
    | Num(n: int)
    | Str(s: string)
    | Time(millis: int)
    | Obj(fields: map<string, Value>)

  type Doc = map<string, Value>

  /** A document or collection path, one segment per element: ["users", uid]. */
  type Path = seq<string>

  type Store = map<Path, Doc>

  /** The signed-in identity handed out by the identity provider. */
  datatype User = User(uid: string, email: string)

  /**
   * JavaScript truthiness; `None` stands for `undefined` (a missing field). The falsy values
   * are `undefined`, `null`, `false`, `0` and the empty string.
   */
  predicate Truthy(v: Option<Value>)
    ensures Truthy(v) <==> v.Some? && v.value !in {Null, Bool(false), Num(0), Str("")}
  {
    match v
    case None => false
    case Some(Null) => false
    case Some(Bool(b)) => b
    case Some(Num(n)) => n != 0
    case Some(Str(s)) => s != ""
    case Some(Time(_)) => true
    case Some(Obj(_)) => true
  }

  /** `o?.k`: the field `k` of a possibly missing document. */
  function Field(o: Option<Doc>, k: string): (r: Option<Value>)
    ensures r.Some? <==> o.Some? && k in o.value
    ensures r.Some? ==> r.value == o.value[k]
  {
    if o.Some? && k in o.value then Some(o.value[k]) else None
  }

  function Get(store: Store, p: Path): (r: Option<Doc>)
    ensures r.Some? <==> p in store
    ensures r.Some? ==> r.value == store[p]
  {
    if p in store then Some(store[p]) else None
  }

  /** `setDoc`: the document at `p` becomes `d`; every other document stays as it was. */
  function Put(store: Store, p: Path, d: Doc): (r: Store)
    ensures r.Keys == store.Keys + {p}
    ensures Get(r, p) == Some(d)
    ensures forall q :: q != p ==> Get(r, q) == Get(store, q)
  {
    store[p := d]
  }

  /** `deleteDoc`: the document at `p` is gone (deleting a missing one is not an error). */
  function Remove(store: Store, p: Path): (r: Store)
    ensures r.Keys == store.Keys - {p}
    ensures Get(r, p) == None
    ensures forall q :: q != p ==> Get(r, q) == Get(store, q)
  {
    store - {p}
  }

  /** A path names a document directly inside collection `coll`. */
  predicate InCollection(p: Path, coll: Path)
  {
    |p| == |coll| + 1 && p[..|coll|] == coll
  }

  /** One document of a query snapshot: its id and its data. */
  datatype DocSnapshot = DocSnapshot(id: string, data: Doc)

  /** `query(collection(...), orderBy(field, 'desc'))`. */
  datatype Query = Query(collection: Path, orderBy: string, descending: bool)

  /** The ordering key of a document for `orderBy(field)`, when it is a timestamp. */
  function TimeKey(d: Doc, field: string): Option<int>
  {
    if field in d && d[field].Time? then Some(d[field].millis) else None
  }

  /**
   * What the store delivers to a listener on a descending query: each document of the
   * collection that has the ordering field, once, with its stored data, later timestamps
   * first. The order of equal keys is left to the store.
   */
  ghost predicate IsSnapshotOf(store: Store, q: Query, snap: seq<DocSnapshot>)
  {
    && q.descending
    && (forall i, j :: 0 <= i < j < |snap| ==> snap[i].id != snap[j].id)
    && (forall i :: 0 <= i < |snap| ==>
          Get(store, q.collection + [snap[i].id]) == Some(snap[i].data) && q.orderBy in snap[i].data)
    && (forall id :: Get(store, q.collection + [id]).Some? && q.orderBy in Get(store, q.collection + [id]).value ==>
          exists i :: 0 <= i < |snap| && snap[i].id == id)
    && (forall i, j :: 0 <= i < j < |snap| && TimeKey(snap[i].data, q.orderBy).Some? && TimeKey(snap[j].data, q.orderBy).Some? ==>
          TimeKey(snap[j].data, q.orderBy).value <= TimeKey(snap[i].data, q.orderBy).value)
  }

  /** `{ ...doc.data(), id: doc.id }`: the data, with `id` set to the document id. */
  function WithId(d: DocSnapshot): (r: Doc)
    ensures r.Keys == d.data.Keys + {"id"}
    ensures r["id"] == Str(d.id)
    ensures forall k :: k in d.data && k != "id" ==> r[k] == d.data[k]
  {
    d.data["id" := Str(d.id)]
  }

  /**
   * The local list a snapshot materialises into: one record per snapshot document, in
   * snapshot order, each carrying its document id.
   */
  function Materialize(snap: seq<DocSnapshot>): (r: seq<Doc>)
    ensures |r| == |snap|
    ensures forall i :: 0 <= i < |snap| ==> r[i] == WithId(snap[i])
  {
    if snap == [] then [] else [WithId(snap[0])] + Materialize(snap[1..])
  }

  /** A request issued to the store, successful or not. */
  datatype Request =
    | Read(path: Path)
    | Write(path: Path, doc: Doc)
    | Add(collection: Path, doc: Doc)
    | Delete(path: Path)

  /** The store as the application's `db` handle sees it. */
  class Db {
    var docs: Store
    var log: seq<Request>

    constructor (initial: Store)
      ensures docs == initial && log == []
    {
      docs := initial;
      log := [];
    }

    /** `getDoc`: the document at `p`, `None` when it does not exist. */
    method GetDoc(p: Path, fault: Option<string>) returns (r: Result<Option<Doc>>)
      modifies this`log
      ensures log == old(log) + [Read(p)]
      ensures r == if fault.Some? then Failure(fault.value) else Success(Get(docs, p))
    {
      log := log + [Read(p)];
      if fault.Some? {
        r := Failure(fault.value);
      } else {
        r := Success(Get(docs, p));
      }
    }

    /** `setDoc`: overwrite (or create) the document at `p`. */
    method SetDoc(p: Path, d: Doc, fault: Option<string>) returns (err: Option<string>)
      modifies this
      ensures log == old(log) + [Write(p, d)]
      ensures err == fault
      ensures docs == if fault.Some? then old(docs) else Put(old(docs), p, d)
    {
      log := log + [Write(p, d)];
      err := fault;
      if fault.None? {
        docs := Put(docs, p, d);
      }
    }

    /** `addDoc`: create a document under `coll` with the store-chosen id `autoId`. */
    method AddDoc(coll: Path, d: Doc, autoId: string, fault: Option<string>) returns (err: Option<string>)
      modifies this
      ensures log == old(log) + [Add(coll, d)]
      ensures err == fault
      ensures docs == if fault.Some? then old(docs) else Put(old(docs), coll + [autoId], d)
    {
      log := log + [Add(coll, d)];
      err := fault;
      if fault.None? {
        docs := Put(docs, coll + [autoId], d);
      }
    }

    /** `deleteDoc`: remove the document at `p`. */
    method DeleteDoc(p: Path, fault: Option<string>) returns (err: Option<string>)
      modifies this
      ensures log == old(log) + [Delete(p)]
      ensures err == fault
      ensures docs == if fault.Some? then old(docs) else Remove(old(docs), p)
    {
      log := log + [Delete(p)];
      err := fault;
      if fault.None? {
        docs := Remove(docs, p);
      }
    }
  }
}
