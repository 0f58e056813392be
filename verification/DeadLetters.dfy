// Wrapping a failed message for the dead-letter queue (subscriber.py, `_move_to_dlq`) and the
// stripping (dlq.py, `reprocess`) that undoes it.
//
// Byte strings are modelled as strings: fields are only compared and copied.
module DeadLetters {

  type Bytes = string

  type Fields = map<Bytes, Bytes>

  const ORIGINAL_STREAM: Bytes := "original_stream"
  const ORIGINAL_ID: Bytes := "original_id"
  const ERROR: Bytes := "error"
  const RESERVED: set<Bytes> := {ORIGINAL_STREAM, ORIGINAL_ID, ERROR}

  function Metadata(stream: Bytes, id: Bytes, error: Bytes): Fields {
    map[ORIGINAL_STREAM := stream, ORIGINAL_ID := id, ERROR := error]
  }

  // The message's own fields are copied over the metadata.
  function Wrap(stream: Bytes, id: Bytes, error: Bytes, data: Fields): Fields {
    Metadata(stream, id, error) + data
  }

  function Strip(data: Fields): Fields {
    map k | k in data && k !in RESERVED :: data[k]
  }

  /** Stripping recovers the message's unreserved fields, hence the message itself if and only
      if it uses none of the three reserved names. */
  lemma StripUndoesWrap(stream: Bytes, id: Bytes, error: Bytes, data: Fields)
    ensures Strip(Wrap(stream, id, error, data)) == Strip(data)
    ensures Strip(Wrap(stream, id, error, data)) == data <==> data.Keys !! RESERVED
  {
    var w := Wrap(stream, id, error, data);
    if data.Keys !! RESERVED {
      assert Strip(data) == data;
    } else {
      var k :| k in data && k in RESERVED;
      assert k !in Strip(w);
    }
  }

  /** Stripping drops the three fields of the dead-letter queue and nothing else. */
  lemma StripKeepsTheRest(data: Fields)
    ensures forall k ::
              k in Strip(data) <==> k in data && k != "original_stream" && k != "original_id" && k != "error"
    ensures forall k | k in Strip(data) :: Strip(data)[k] == data[k]
  {
    assert RESERVED == {"original_stream", "original_id", "error"};
  }

  /** A wrapped message has its own fields and the three of the queue, which say where it came from
      and why; its own fields come first. */
  lemma WrapTellsTheOrigin(stream: Bytes, id: Bytes, error: Bytes, data: Fields)
    ensures var w := Wrap(stream, id, error, data);
            && w.Keys == data.Keys + {"original_stream", "original_id", "error"}
            && (forall k | k in data :: w[k] == data[k])
            && ("original_stream" !in data ==> w["original_stream"] == stream)
            && ("original_id" !in data ==> w["original_id"] == id)
            && ("error" !in data ==> w["error"] == error)
  {
    NamesDiffer();
  }

  lemma NamesDiffer()
    ensures "original_stream" != "original_id" && "original_stream" != "error" && "original_id" != "error"
  {
    assert |"original_stream"| == 15 && |"original_id"| == 11 && |"error"| == 5;
  }

  /** What the publisher makes of an event, one field with its JSON text, survives the round trip. */
  lemma SerializedEventComesBack(stream: Bytes, id: Bytes, error: Bytes, json: Bytes)
    ensures Strip(Wrap(stream, id, error, map["data" := json])) == map["data" := json]
  {
    var event := map["data" := json];
    StripUndoesWrap(stream, id, error, event);
    StripKeepsTheRest(event);
    assert |"data"| == 4 && "data" != "error";
    assert Strip(event).Keys == event.Keys;
  }

  method WrapFields(stream: Bytes, id: Bytes, error: Bytes, data: Fields) returns (fields: Fields)
    ensures fields == Wrap(stream, id, error, data)
  {
    fields := Metadata(stream, id, error);
    var rest := data.Keys;
    while rest != {}
      invariant rest <= data.Keys
      invariant fields == Metadata(stream, id, error) + (map k | k in data && k !in rest :: data[k])
      decreases rest
    {
      var k :| k in rest;
      fields := fields[k := data[k]];
      rest := rest - {k};
    }
    assert (map k | k in data && k !in rest :: data[k]) == data;
  }

  method StripFields(data: Fields) returns (clean: Fields)
    ensures clean == Strip(data)
  {
    clean := map[];
    var rest := data.Keys;
    while rest != {}
      invariant rest <= data.Keys
      invariant clean == map k | k in data && k !in rest && k !in RESERVED :: data[k]
      decreases rest
    {
      var k :| k in rest;
      rest := rest - {k};
      if k !in RESERVED { clean := clean[k := data[k]]; }
    }
  }

  // ------------------------------------------------------- there and back

  // What reprocessing a list of dead letters publishes.
  function Republished(letters: seq<Fields>): seq<Fields> {
    if letters == [] then []
    else
      var clean := Strip(letters[|letters| - 1]);
      Republished(letters[..|letters| - 1]) + (if clean == map[] then [] else [clean])
  }

  datatype Failed = Failed(stream: Bytes, id: Bytes, error: Bytes, data: Fields)

  // What dead-lettering makes of failed messages, and what they were.
  function Wrapped(failed: seq<Failed>): seq<Fields> {
    if failed == [] then []
    else
      var f := failed[|failed| - 1];
      Wrapped(failed[..|failed| - 1]) + [Wrap(f.stream, f.id, f.error, f.data)]
  }

  function DataOf(failed: seq<Failed>): seq<Fields> {
    if failed == [] then [] else DataOf(failed[..|failed| - 1]) + [failed[|failed| - 1].data]
  }

  lemma RepublishedOneMore(letters: seq<Fields>, letter: Fields)
    ensures Republished(letters + [letter])
         == Republished(letters) + if Strip(letter) == map[] then [] else [Strip(letter)]
  {
    assert (letters + [letter])[..|letters|] == letters;
  }

  /** Reprocessing what was dead-lettered re-publishes the very messages, in order, when each is
      non-empty and uses no reserved name. */
  lemma {:induction false} ReprocessingUndoesDeadLettering(failed: seq<Failed>)
    requires forall f | f in failed :: f.data != map[] && f.data.Keys !! RESERVED
    ensures Republished(Wrapped(failed)) == DataOf(failed)
  {
    if failed != [] {
      var n := |failed| - 1;
      var last := failed[n];
      assert last in failed;
      ReprocessingUndoesDeadLettering(failed[..n]);
      StripUndoesWrap(last.stream, last.id, last.error, last.data);
      RepublishedOneMore(Wrapped(failed[..n]), Wrap(last.stream, last.id, last.error, last.data));
    }
  }
}
