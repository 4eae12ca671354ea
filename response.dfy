/**
 * The server's side of one HTTP response, as the handlers drive it:
 * `res.status(code).json(body)`, `res.writeHead(code, headers)`, `res.write(chunk)`
 * and `res.end()`. What the runtime does with bytes on the wire is not modelled;
 * a call the runtime refuses (a header or JSON body after the headers went out,
 * a write after the end) leaves the response as it was and is counted in `refused`.
 */
module HttpResponse {
  import opened Wrappers

  /** A JSON body: the handlers' `{ error: ... }` objects, or an upstream document relayed as parsed. */
  datatype Body = ErrorJson(error: string) | Relayed(document: string)

  type Header = (string, string)

  /** The Server-Sent Events headers (section 9.2 of the WHATWG HTML Living Standard). */
  const SseHeaders: seq<Header> :=
    [("Content-Type", "text/event-stream"), ("Cache-Control", "no-cache"), ("Connection", "keep-alive")]

  /** Everything observable about a response, as a value. */
  datatype Snapshot = Snapshot(
    statusCode: int,
    headers: seq<Header>,   // headers given to writeHead
    headersSent: bool,
    ended: bool,            // Node's writableEnded
    endCount: nat,          // how many times the response was ended
    json: Option<Body>,
    events: seq<string>,    // chunks written with write, in order
    refused: nat)           // calls the runtime refuses

  /** A response nothing has been done to yet. */
  const Initial := Snapshot(200, [], false, false, 0, None, [], 0)

  /** The request was answered with one JSON body and nothing else: no stream opened, ended once, nothing refused. */
  predicate JsonOnly(r: Snapshot, code: int, body: Body) {
    r.statusCode == code && r.json == Some(body) && r.headers == [] && r.events == []
    && r.ended && r.endCount == 1 && r.refused == 0
  }

  /** `res.status(code).json(body)`: sets the status, sends the body and ends the response. */
  function OnStatusJson(s: Snapshot, code: int, body: Body): Snapshot {
    if s.headersSent then s.(refused := s.refused + 1)
    else s.(statusCode := code, headersSent := true, ended := true, endCount := s.endCount + 1, json := Some(body))
  }

  /** `res.writeHead(code, headers)`. */
  function OnWriteHead(s: Snapshot, code: int, headers: seq<Header>): Snapshot {
    if s.headersSent then s.(refused := s.refused + 1)
    else s.(statusCode := code, headers := headers, headersSent := true)
  }

  /** `res.write(chunk)`; the first write sends the headers if nothing did before. */
  function OnWrite(s: Snapshot, chunk: string): Snapshot {
    if s.ended then s.(refused := s.refused + 1)
    else s.(headersSent := true, events := s.events + [chunk])
  }

  /** `res.end()`. */
  function OnEnd(s: Snapshot): Snapshot {
    s.(headersSent := true, ended := true, endCount := s.endCount + 1)
  }

  /** One `write` per chunk, in order. */
  function OnWrites(s: Snapshot, chunks: seq<string>): Snapshot
    decreases |chunks|
  {
    if chunks == [] then s else OnWrite(OnWrites(s, chunks[..|chunks| - 1]), chunks[|chunks| - 1])
  }

  /** On an open stream, writing a run of chunks appends exactly those chunks and changes nothing else. */
  lemma {:induction false} OnWritesAppends(s: Snapshot, chunks: seq<string>)
    requires s.headersSent && !s.ended
    ensures OnWrites(s, chunks) == s.(events := s.events + chunks)
    decreases |chunks|
  {
    if chunks != [] {
      var init := chunks[..|chunks| - 1];
      OnWritesAppends(s, init);
      assert init + [chunks[|chunks| - 1]] == chunks;
    }
  }

  /** A response whose state the handlers change in place. */
  class Response {
    var statusCode: int
    var headers: seq<Header>
    var headersSent: bool
    var ended: bool
    var endCount: nat
    var json: Option<Body>
    var events: seq<string>
    var refused: nat

    function State(): Snapshot
      reads this
    {
      Snapshot(statusCode, headers, headersSent, ended, endCount, json, events, refused)
    }

    constructor ()
      ensures State() == Initial
    {
      statusCode, headers, headersSent, ended := 200, [], false, false;
      endCount, json, events, refused := 0, None, [], 0;
    }

    method StatusJson(code: int, body: Body)
      modifies this
      ensures State() == OnStatusJson(old(State()), code, body)
    {
      if headersSent {
        refused := refused + 1;
      } else {
        statusCode, headersSent, ended := code, true, true;
        endCount, json := endCount + 1, Some(body);
      }
    }

    method WriteHead(code: int, hs: seq<Header>)
      modifies this
      ensures State() == OnWriteHead(old(State()), code, hs)
    {
      if headersSent {
        refused := refused + 1;
      } else {
        statusCode, headers, headersSent := code, hs, true;
      }
    }

    method Write(chunk: string)
      modifies this
      ensures State() == OnWrite(old(State()), chunk)
    {
      if ended {
        refused := refused + 1;
      } else {
        headersSent := true;
        events := events + [chunk];
      }
    }

    method End()
      modifies this
      ensures State() == OnEnd(old(State()))
    {
      headersSent, ended, endCount := true, true, endCount + 1;
    }

    /** `for await (const chunk of body) res.write(chunk)` over a stream that delivers `chunks`. */
    method Relay(chunks: seq<string>)
      modifies this
      ensures State() == OnWrites(old(State()), chunks)
    {
      for i := 0 to |chunks|
        invariant State() == OnWrites(old(State()), chunks[..i])
      {
        assert chunks[..i + 1][..i] == chunks[..i];
        Write(chunks[i]);
      }
      assert chunks[..|chunks|] == chunks;
    }
  }
}
