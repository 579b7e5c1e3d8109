/** The dynamically typed values that flow through keyword arguments and JSON documents. */
module Values {

  /** A Python value as far as the core inspects it: `None`, scalars, lists and tuples,
      and an object that carries an `.id` attribute (a channel, guild or user object). */
  datatype Val =
    | VNone
    | VBool(b: bool)
    | VInt(i: int)
    | VStr(s: string)
    | VList(items: seq<Val>)
    | VTuple(items: seq<Val>)
    | VObj(id: Val)

  /** `d.get(k, None)` on a dictionary. */
  function Get(d: map<string, Val>, k: string): (v: Val)
  {
    if k in d then d[k] else VNone
  }

  /** `getattr(v, 'id', v)`: the id of an object, the value itself otherwise. */
  function IdOf(v: Val): (r: Val)
  {
    if v.VObj? then v.id else v
  }
}
