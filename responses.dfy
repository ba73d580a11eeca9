/**
 * The response envelope of src/Http/Response.php: an error code, an error
 * message, the payload and the raw transport result, each set by its own
 * setter.
 */
module Responses {
  import opened Php
  import opened Wordpress

  /** The state of a Response object, as a value. */
  datatype Envelope = Envelope(code: Value, error: Value, data: Value, raw: Option<Transport>) {

    /** `isError()`: the message is non-empty in PHP's sense. */
    predicate IsError() {
      !Empty(error)
    }

    /** `getData($key)`: the whole payload for an empty key, otherwise the
        entry when it is set, otherwise null. */
    function GetData(key: string): Value {
      if Empty(Str(key)) then data
      else if data.Arr? && IsSet(data.entries, key) then data.entries[key]
      else Null
    }
  }

  /** A Response as `new Response()` creates it. */
  const Blank := Envelope(Str(""), Str(""), Arr(map[]), None)

  class Response {
    var code: Value
    var error: Value
    var data: Value
    var raw: Option<Transport>

    function Snapshot(): Envelope
      reads this
    {
      Envelope(code, error, data, raw)
    }

    constructor ()
      ensures Snapshot() == Blank
    {
      code, error, data, raw := Str(""), Str(""), Arr(map[]), None;
    }

    method SetData(d: Value)
      modifies this
      ensures Snapshot() == old(Snapshot()).(data := d)
    {
      data := d;
    }

    function GetData(key: string): Value
      reads this
    {
      Snapshot().GetData(key)
    }

    predicate IsError()
      reads this
    {
      Snapshot().IsError()
    }

    method SetError(message: Value)
      modifies this
      ensures Snapshot() == old(Snapshot()).(error := message)
    {
      error := message;
    }

    function GetError(): Value
      reads this
    {
      error
    }

    method SetCode(c: Value)
      modifies this
      ensures Snapshot() == old(Snapshot()).(code := c)
    {
      code := c;
    }

    function GetCode(): Value
      reads this
    {
      code
    }

    function GetRaw(): Option<Transport>
      reads this
    {
      raw
    }

    method SetRaw(r: Transport)
      modifies this
      ensures Snapshot() == old(Snapshot()).(raw := Some(r))
    {
      raw := Some(r);
    }
  }

  /** A fresh Response is not an error and holds the empty payload. */
  lemma BlankIsNotError()
    ensures !Blank.IsError()
    ensures Blank.GetData("") == Arr(map[])
  {
  }

  /** `isError()` on a string message: true exactly when the message is
      neither "" nor "0". */
  lemma IsErrorOnMessage(e: Envelope, message: string)
    requires e.error == Str(message)
    ensures e.IsError() <==> message != "" && message != "0"
  {
  }

  /** `getData($key)`: "" and "0" select the whole payload; any other key
      selects its entry when set and null otherwise. */
  lemma GetDataSpec(e: Envelope, key: string)
    ensures key == "" || key == "0" ==> e.GetData(key) == e.data
    ensures key != "" && key != "0" && e.data.Arr? && IsSet(e.data.entries, key)
      ==> e.GetData(key) == e.data.entries[key]
    ensures key != "" && key != "0" && !(e.data.Arr? && IsSet(e.data.entries, key))
      ==> e.GetData(key) == Null
  {
  }

  /** Each setter changes its own field only, and the getter returns what was set. */
  method SetThenGet(r: Response, c: Value, m: Value, d: Value, t: Transport)
    modifies r
    ensures r.GetCode() == c && r.GetError() == m && r.GetData("") == d && r.GetRaw() == Some(t)
  {
    r.SetCode(c);
    r.SetError(m);
    r.SetData(d);
    r.SetRaw(t);
  }
}
