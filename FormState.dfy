/** What the three form pages have in common: the values a `formData` entry
    can hold, and the per-field error map with its "clear when the user types"
    rule. */
module FormState {

  datatype Option<T> = None | Some(value: T)

  /** A JavaScript value held by one `formData` entry. Numeric inputs start
      as numbers and hold the input's string value once edited. */
  datatype Value = Text(s: string) | Flag(b: bool) | Number(n: int) | List(items: seq<string>)

  /** One entry of an `errors` map: a message from the page's own table, or
      the empty string a handler writes to blank it. Each page gives the text
      of its messages; none of them is empty, so an entry is truthy exactly
      when it `Says` something. */
  datatype ErrorText<M> = Empty | Says(message: M)

  /** `newErrors[f] = message` when a check produced a message, and nothing
      when it did not. */
  function Record<K, M>(errors: map<K, ErrorText<M>>, f: K, message: Option<M>): (r: map<K, ErrorText<M>>)
    ensures message.None? ==> r == errors
    ensures message.Some? ==> f in r && r[f] == Says(message.value)
  {
    match message
    case Some(m) => errors[f := Says(m)]
    case None => errors
  }

  /** Recording adds at most the checked key and changes no other entry. */
  lemma RecordAt<K, M>(errors: map<K, ErrorText<M>>, f: K, message: Option<M>, g: K)
    ensures g in Record(errors, f, message) <==> (g == f && message.Some?) || g in errors
    ensures g in Record(errors, f, message) ==>
      Record(errors, f, message)[g] == if g == f && message.Some? then Says(message.value) else errors[g]
  {
  }

  /** `errors[name]` is truthy: the key is present with a message. */
  predicate HasError<K, M>(errors: map<K, ErrorText<M>>, name: K) {
    name in errors && errors[name].Says?
  }

  /** The error-clearing step of every `handleInputChange`: blank the named
      field's message when one is set; otherwise leave the map alone. */
  function ClearError<K, M>(errors: map<K, ErrorText<M>>, name: K): (r: map<K, ErrorText<M>>)
    ensures !HasError(r, name)
    ensures r.Keys == errors.Keys
    ensures forall k :: k in errors && k != name ==> r[k] == errors[k]
    ensures !HasError(errors, name) ==> r == errors
  {
    if HasError(errors, name) then errors[name := Empty] else errors
  }

  /** Clearing twice is clearing once. */
  lemma ClearErrorIdempotent<K, M>(errors: map<K, ErrorText<M>>, name: K)
    ensures ClearError(ClearError(errors, name), name) == ClearError(errors, name)
  {
  }

  /** Clearing never reveals a new error: every error left was there before. */
  lemma ClearErrorOnlyRemoves<K, M>(errors: map<K, ErrorText<M>>, name: K, k: K)
    ensures HasError(ClearError(errors, name), k) <==> HasError(errors, k) && k != name
  {
  }
}
