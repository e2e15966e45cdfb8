/** The todo payload (todo.payload.todo.Todo): a record of three nullable fields. */
module TodoPayload {
  import opened Values

  /** The two statuses a stored todo may have: N for "not done", D for "done". */
  const NotDone := "N"
  const Done := "D"

  /** A key/value map as `to_dict` produces it and `from_dict` reads it; a None value is JSON null. */
  type Dict = map<string, Option<string>>

  /** Python's `dict.get`: the bound value, or None for a key that is absent. */
  function Get(d: Dict, key: string): Option<string> {
    if key in d then d[key] else None
  }

  /** The three fields of a Todo object, taken as a value. */
  datatype Fields = Fields(id: Option<string>, text: Option<string>, status: Option<string>)

  /** The fields `assing_default_values` leaves behind, where `freshId` is what uuid4() returns. */
  function WithDefaults(f: Fields, freshId: string): (r: Fields)
    ensures r.id.Some? && r.status.Some?
    ensures r.text == f.text
    ensures f.id.Some? ==> r.id == f.id
    ensures f.id.None? ==> r.id == Some(freshId)
    ensures f.status.Some? ==> r.status == f.status
    ensures f.status.None? ==> r.status == Some(NotDone)
  {
    var id := match f.id case Some(_) => f.id case None => Some(freshId);
    var status := match f.status case Some(_) => f.status case None => Some(NotDone);
    f.(id := id, status := status)
  }

  /** Applying the defaults a second time changes nothing, whatever fresh id it is offered. */
  lemma DefaultsIdempotent(f: Fields, freshId: string, otherId: string)
    ensures WithDefaults(WithDefaults(f, freshId), otherId) == WithDefaults(f, freshId)
  {
  }

  class Todo {
    var id: Option<string>
    var text: Option<string>
    var status: Option<string>

    /** The value held by the three fields. */
    function Value(): Fields
      reads this
    {
      Fields(id, text, status)
    }

    /** `Todo(text, _id, status)`: the text comes first, the id and status may be None. */
    constructor (text: Option<string>, id: Option<string>, status: Option<string>)
      ensures Value() == Fields(id, text, status)
    {
      this.id := id;
      this.text := text;
      this.status := status;
    }

    /** `assing_default_values`: fills a None id with `freshId` and a None status with N, in place. */
    method AssignDefaultValues(freshId: string)
      modifies this
      ensures Value() == WithDefaults(old(Value()), freshId)
      ensures id.Some? && status.Some? && text == old(text)
    {
      id := if id != None then id else Some(freshId);
      status := if status != None then status else Some(NotDone);
    }
  }

  /** `to_dict`: exactly the keys id, text and status, bound to the three fields. */
  function ToDict(f: Fields): (d: Dict)
    ensures d.Keys == {"id", "text", "status"}
    ensures d["id"] == f.id && d["text"] == f.text && d["status"] == f.status
  {
    map["id" := f.id, "text" := f.text, "status" := f.status]
  }

  /** `from_dict`: the fields the constructor receives; an absent key gives a None field. */
  function FromDict(d: Dict): (f: Fields)
    ensures "id" in d ==> f.id == d["id"]
    ensures "text" in d ==> f.text == d["text"]
    ensures "status" in d ==> f.status == d["status"]
    ensures "id" !in d ==> f.id == None
    ensures "text" !in d ==> f.text == None
    ensures "status" !in d ==> f.status == None
  {
    Fields(Get(d, "id"), Get(d, "text"), Get(d, "status"))
  }

  /** `from_dict(to_dict(t))` has the same id, text and status as `t`. */
  lemma FromDictToDict(f: Fields)
    ensures FromDict(ToDict(f)) == f
  {
  }

  /** `to_dict(from_dict(d))` agrees with `d.get` on every one of its keys, and has no others. */
  lemma ToDictFromDict(d: Dict)
    ensures ToDict(FromDict(d)).Keys == {"id", "text", "status"}
    ensures forall k | k in ToDict(FromDict(d)) :: ToDict(FromDict(d))[k] == Get(d, k)
  {
  }
}
