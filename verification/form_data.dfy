/**
 * The multipart body of the registration request: every field of the user's
 * data is appended in order, except those whose value is null or undefined.
 */
module FormData {
  import opened Wrappers

  /** A value the registration form can carry: text, or a file such as the
      profile photo (its contents are not modelled). */
  datatype FormValue = TextValue(text: string) | FileValue(fileName: string)

  /** A field of the user's data; `None` is null or undefined. */
  type Field = (string, Option<FormValue>)

  /** A field of the multipart body. */
  type Entry = (string, FormValue)

  /** The entries the body receives from `fields`, defined from the last field
      back so that it follows the order in which they are appended. */
  function Present(fields: seq<Field>): seq<Entry> {
    if |fields| == 0 then []
    else
      var last := fields[|fields| - 1];
      Present(fields[..|fields| - 1]) + (if last.1.Some? then [(last.0, last.1.value)] else [])
  }

  /** The number of fields that carry a value. */
  function CountSet(fields: seq<Field>): nat {
    if |fields| == 0 then 0
    else CountSet(fields[..|fields| - 1]) + (if fields[|fields| - 1].1.Some? then 1 else 0)
  }

  /** Builds the body the way the registration action does, one field at a time. */
  method Build(fields: seq<Field>) returns (form: seq<Entry>)
    ensures form == Present(fields)
    ensures |form| == CountSet(fields)
  {
    form := [];
    var i := 0;
    while i < |fields|
      invariant 0 <= i <= |fields|
      invariant form == Present(fields[..i])
      invariant |form| == CountSet(fields[..i])
    {
      assert fields[..i + 1][..i] == fields[..i];
      var (key, value) := fields[i];
      if value.Some? {
        form := form + [(key, value.value)];
      }
      i := i + 1;
    }
    assert fields[..|fields|] == fields;
  }

  /** The body holds an entry exactly when the user's data has that field
      with that (non-null) value. */
  lemma {:induction false} PresentExactlySetFields(fields: seq<Field>, key: string, v: FormValue)
    ensures (key, v) in Present(fields) <==> (key, Some(v)) in fields
    decreases |fields|
  {
    if |fields| > 0 {
      var init := fields[..|fields| - 1];
      var last := fields[|fields| - 1];
      assert fields == init + [last];
      PresentExactlySetFields(init, key, v);
    }
  }

  /** No null or undefined field is dropped silently beyond the unset ones:
      the body has one entry per field that carries a value. */
  lemma {:induction false} PresentCountsSetFields(fields: seq<Field>)
    ensures |Present(fields)| == CountSet(fields)
    ensures CountSet(fields) <= |fields|
    decreases |fields|
  {
    if |fields| > 0 {
      PresentCountsSetFields(fields[..|fields| - 1]);
    }
  }

  /** Appending a field extends the body by that field's entry, if any: the
      body keeps the fields' order. */
  lemma {:induction false} PresentAppend(fields: seq<Field>, more: seq<Field>)
    ensures Present(fields + more) == Present(fields) + Present(more)
    decreases |more|
  {
    if |more| == 0 {
      assert fields + more == fields;
    } else {
      var init := more[..|more| - 1];
      assert (fields + more)[..|fields + more| - 1] == fields + init;
      assert (fields + more)[|fields + more| - 1] == more[|more| - 1];
      PresentAppend(fields, init);
    }
  }
}
