/** Firestore documents as the components see them: a JavaScript object whose
    fields may be missing. Object spread `{ ...a, ...b }` is map union with the
    right operand winning, which is Dafny's `a + b` on maps. */
module Records {
  import opened Wrappers

  /** A field value: a string, a number, a Firestore `Timestamp` read back
      from the store (whole seconds), the `serverTimestamp()` sentinel
      written by the client, or a local `new Date()` (milliseconds). */
  datatype Value = Str(s: string) | Num(n: int) | Stamp(seconds: int) | ServerTime | LocalDate(ms: int)

  type Fields = map<string, Value>

  /** A document together with its id, `{ id: d.id, ...d.data() }`. */
  datatype Doc = Doc(id: string, fields: Fields)

  function Get(f: Fields, key: string): Option<Value> {
    if key in f then Some(f[key]) else None
  }

  /** `{ ...f, key: v }` where an `undefined` value leaves the field out. */
  function Put(f: Fields, key: string, v: Option<Value>): (r: Fields)
    ensures Get(r, key) == v
    ensures forall k :: k != key ==> Get(r, k) == Get(f, k)
  {
    if v.Some? then f[key := v.value] else f - {key}
  }

  /** JavaScript truthiness of a field: `undefined`, `''` and `0` are falsy. */
  predicate Truthy(v: Option<Value>) {
    match v
    case None => false
    case Some(Str(s)) => s != ""
    case Some(Num(n)) => n != 0
    case Some(_) => true
  }

  /** `f.key === s` for a string literal `s`. */
  predicate HasText(f: Fields, key: string, s: string) {
    key in f && f[key] == Str(s)
  }

  /** `f.key || ''` for a text field (a field that is not a string reads as ''). */
  function TextOf(f: Fields, key: string): string {
    if key in f && f[key].Str? then f[key].s else ""
  }

  /** `(f.key || 0)` for a counter such as `likes` or `shares`. */
  function CounterOf(f: Fields, key: string): int {
    if key in f && f[key].Num? then f[key].n else 0
  }

  /** `(f.createdAt?.seconds || 0)` */
  function SecondsOf(f: Fields): int {
    if "createdAt" in f && f["createdAt"].Stamp? then f["createdAt"].seconds else 0
  }

  /** `a || b || ... || dflt`: the first truthy value, else the default. */
  function FirstTruthy(vs: seq<Option<Value>>, dflt: Value): (r: Value)
    ensures (exists i :: 0 <= i < |vs| && Truthy(vs[i])) ==> Some(r) in vs && Truthy(Some(r))
    ensures (forall i :: 0 <= i < |vs| ==> !Truthy(vs[i])) ==> r == dflt
    ensures forall i :: 0 <= i < |vs| && Truthy(vs[i]) && (forall j :: 0 <= j < i ==> !Truthy(vs[j])) ==> Some(r) == vs[i]
  {
    if vs == [] then dflt
    else if Truthy(vs[0]) then vs[0].value
    else FirstTruthy(vs[1..], dflt)
  }

}
