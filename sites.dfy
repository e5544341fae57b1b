/** The bounded per-site status history (`Site` and `MAX_STATUSES` in src/app/site.rs,
    repeated in src/app/mod.rs). A history is newest-first: entry 0 is the latest probe. */
module Sites {
  import opened Status

  /** Capacity of every history. */
  const MAX_STATUSES: nat := 50

  /** The history of a site that has never been probed: `vec![None; MAX_STATUSES]`. */
  function Unprobed(): (h: seq<StatusCode>)
    ensures |h| == MAX_STATUSES
    ensures forall i :: 0 <= i < |h| ==> h[i] == None
  {
    seq(MAX_STATUSES, _ => None)
  }

  /** The history after one `push_status_code(code)`: when the history is full its back
      (oldest) entry is popped, then `code` is pushed at the front. */
  function Push(h: seq<StatusCode>, code: StatusCode): (r: seq<StatusCode>)
    ensures |r| == if |h| == MAX_STATUSES then MAX_STATUSES else |h| + 1
    ensures r[0] == code
    ensures r[1..] == h[..|r| - 1]
  {
    var popped := if |h| == MAX_STATUSES then h[..|h| - 1] else h;
    [code] + popped
  }

  /** The history after pushing `codes[0]`, then `codes[1]`, and so on. */
  function PushAll(h: seq<StatusCode>, codes: seq<StatusCode>): seq<StatusCode>
    decreases |codes|
  {
    if codes == [] then h else PushAll(Push(h, codes[0]), codes[1..])
  }

  /** `codes` newest-first: the last one pushed comes first. */
  function NewestFirst(codes: seq<StatusCode>): (r: seq<StatusCode>)
    ensures |r| == |codes|
    ensures forall i :: 0 <= i < |codes| ==> r[i] == codes[|codes| - 1 - i]
  {
    if codes == [] then [] else NewestFirst(codes[1..]) + [codes[0]]
  }

  /** A full history stays full; one with room grows by one and loses nothing. */
  lemma PushLength(h: seq<StatusCode>, code: StatusCode)
    ensures |h| == MAX_STATUSES ==> |Push(h, code)| == MAX_STATUSES
    ensures |h| < MAX_STATUSES ==> |Push(h, code)| == |h| + 1 && Push(h, code)[1..] == h
    ensures |h| <= MAX_STATUSES ==> |Push(h, code)| <= MAX_STATUSES
  {
  }

  /** On a full history a push evicts exactly the oldest entry. */
  lemma PushEvictsOldest(h: seq<StatusCode>, code: StatusCode)
    requires |h| == MAX_STATUSES
    ensures Push(h, code) == [code] + h[..MAX_STATUSES - 1]
  {
  }

  /** "length <= MAX_STATUSES" holds after any number of pushes. */
  lemma {:induction false} PushAllBounded(h: seq<StatusCode>, codes: seq<StatusCode>)
    requires |h| <= MAX_STATUSES
    ensures |PushAll(h, codes)| <= MAX_STATUSES
    ensures |h| == MAX_STATUSES ==> |PushAll(h, codes)| == MAX_STATUSES
    decreases |codes|
  {
    if codes != [] {
      PushAllBounded(Push(h, codes[0]), codes[1..]);
    }
  }

  /** Keeping the first `MAX_STATUSES` entries of `x + h` ignores the last entry of a full `h`
      once `x` is non-empty. */
  lemma TakeIgnoresTail(x: seq<StatusCode>, h: seq<StatusCode>)
    requires |x| >= 1 && |h| == MAX_STATUSES
    ensures (x + h[..MAX_STATUSES - 1])[..MAX_STATUSES] == (x + h)[..MAX_STATUSES]
  {
  }

  /** The sliding window: pushing `codes` into a full history gives the pushed codes
      newest-first followed by the old history, cut to `MAX_STATUSES` entries. */
  lemma {:induction false} PushAllWindow(h: seq<StatusCode>, codes: seq<StatusCode>)
    requires |h| == MAX_STATUSES
    ensures PushAll(h, codes) == (NewestFirst(codes) + h)[..MAX_STATUSES]
    decreases |codes|
  {
    if codes != [] {
      var c := codes[0];
      var rest := codes[1..];
      PushEvictsOldest(h, c);
      PushAllWindow(Push(h, c), rest);
      assert NewestFirst(codes) == NewestFirst(rest) + [c];
      calc {
        PushAll(h, codes);
        (NewestFirst(rest) + ([c] + h[..MAX_STATUSES - 1]))[..MAX_STATUSES];
        { assert NewestFirst(rest) + ([c] + h[..MAX_STATUSES - 1])
              == (NewestFirst(rest) + [c]) + h[..MAX_STATUSES - 1];
          TakeIgnoresTail(NewestFirst(rest) + [c], h); }
        ((NewestFirst(rest) + [c]) + h)[..MAX_STATUSES];
        (NewestFirst(codes) + h)[..MAX_STATUSES];
      }
    } else {
      assert NewestFirst(codes) + h == h;
    }
  }

  /** Pushing at most `MAX_STATUSES` codes into a never-probed history leaves them
      newest-first at the front and `None` everywhere after. */
  lemma PushIntoUnprobed(codes: seq<StatusCode>)
    requires |codes| <= MAX_STATUSES
    ensures |PushAll(Unprobed(), codes)| == MAX_STATUSES
    ensures forall i :: 0 <= i < |codes| ==> PushAll(Unprobed(), codes)[i] == codes[|codes| - 1 - i]
    ensures forall i :: |codes| <= i < MAX_STATUSES ==> PushAll(Unprobed(), codes)[i] == None
  {
    PushAllWindow(Unprobed(), codes);
  }

  /** Pushing `MAX_STATUSES` or more codes into a full history leaves exactly the last
      `MAX_STATUSES` of them, newest first: the oldest are evicted first. */
  lemma PushAllEvictsFifo(h: seq<StatusCode>, codes: seq<StatusCode>)
    requires |h| == MAX_STATUSES && |codes| >= MAX_STATUSES
    ensures PushAll(h, codes) == NewestFirst(codes[|codes| - MAX_STATUSES..])
  {
    PushAllWindow(h, codes);
    var r := PushAll(h, codes);
    var w := NewestFirst(codes[|codes| - MAX_STATUSES..]);
    forall i | 0 <= i < MAX_STATUSES ensures r[i] == w[i] {
      assert r[i] == NewestFirst(codes)[i];
    }
  }

  /** A monitored site (`Site`): its name and address never change after creation; its
      history is updated in place by `PushStatusCode`. */
  class Site {
    const name: string
    const url: string
    var statusCodes: seq<StatusCode>

    /** A site's history always holds exactly `MAX_STATUSES` entries. */
    predicate Valid()
      reads this
    {
      |statusCodes| == MAX_STATUSES
    }

    /** `Site::new`: a site with a full, never-probed history. */
    constructor (name: string, addr: string)
      ensures this.name == name && this.url == addr
      ensures statusCodes == Unprobed()
      ensures Valid()
    {
      this.name := name;
      this.url := addr;
      statusCodes := Unprobed();
    }

    /** `push_status_code`: `pop_back` when full, then `push_front`. */
    method PushStatusCode(code: StatusCode)
      modifies this`statusCodes
      ensures statusCodes == Push(old(statusCodes), code)
      ensures |old(statusCodes)| <= MAX_STATUSES ==> |statusCodes| <= MAX_STATUSES
      ensures old(Valid()) ==> Valid()
    {
      if |statusCodes| == MAX_STATUSES {
        statusCodes := statusCodes[..|statusCodes| - 1];
      }
      statusCodes := [code] + statusCodes;
    }

    /** `get_status_codes`: a copy of the current history; the site is not changed. */
    method GetStatusCodes() returns (codes: seq<StatusCode>)
      ensures codes == statusCodes
    {
      codes := statusCodes;
    }
  }
}
