/** The contract of the buffers that the parsers fill. The buffer library is not part of the repository; what it is
    taken to do is written down here. */
module Buffer {
  import opened Text

  /** A buffer holds `data` and possibly an open run, here the octets read since the run was opened or reopened. */
  datatype Buf = Buf(data: string, run: Option<string>)

  const EMPTY := Buf("", None)

  /** `start(p)`: empties the buffer and opens a run. */
  function Start(): Buf { Buf("", Some("")) }

  /** `cont(p)`: opens a run without emptying or flushing; octets of a run that was open are dropped. */
  function Cont(b: Buf): Buf { b.(run := Some("")) }

  /** `stop(p)` and `finish(p)`: append the open run up to, and without, the current octet, and close it. */
  function Stop(b: Buf): Buf { Buf(Pending(b), None) }

  /** `stop(p+1)` and `finish(p+1)`: the same, with the current octet. */
  function StopAfter(b: Buf, c: char): Buf { if b.run.Some? then Buf(Pending(b) + [c], None) else b }

  /** `cont(&c); stop(&c+1)`: appends one octet. */
  function AddOctet(b: Buf, c: char): Buf { Buf(b.data + [c], None) }

  /** `cont(s.begin()); stop(s.end())`: appends a text that lies elsewhere. */
  function AddText(b: Buf, s: string): Buf { Buf(b.data + s, None) }

  /** Going on to the next octet: an open run now covers the current one. */
  function Advance(b: Buf, c: char): Buf { if b.run.Some? then b.(run := Some(b.run.value + [c])) else b }

  /** The end of a chunk: an open run is appended, and reopened at the start of the next chunk. */
  function Pause(b: Buf): Buf { if b.run.Some? then Buf(Pending(b), Some("")) else b }

  /** The content including the open run. */
  function Pending(b: Buf): string { if b.run.Some? then b.data + b.run.value else b.data }
}
