/** A reader that hands out no more than a limit and says so when there would have been more. */
module CapReader {
  /** Where the bytes come from; how many arrive at once is up to the other side. */
  class Source {
    const data: string
    var pos: nat

    constructor (data: string)
      ensures this.data == data && pos == 0
    {
      this.data, pos := data, 0;
    }

    ghost predicate Valid()
      reads this
    {
      pos <= |data|
    }

    method Read(room: nat, arriving: nat) returns (chunk: string)
      requires Valid()
      modifies this
      ensures Valid() && |chunk| <= room && pos == old(pos) + |chunk| && chunk == data[old(pos)..pos]
      ensures arriving > 0 && room > 0 && old(pos) < |data| ==> chunk != ""
    {
      var n := if arriving < room then arriving else room;
      if n > |data| - pos {
        n := |data| - pos;
      }
      chunk := data[pos..pos + n];
      pos := pos + n;
    }
  }

  datatype ReadResult = Bytes(chunk: string) | TooLarge

  class Reader {
    const source: Source
    const limit: nat
    var left: int
    var over: bool
    ghost var handed: string

    constructor (source: Source, limit: nat)
      requires source.Valid() && source.pos == 0
      ensures this.source == source && this.limit == limit && Valid() && handed == "" && !over
    {
      this.source, this.limit, left, over, handed := source, limit, limit, false, "";
    }

    /** What was handed out is the front of the data, within the limit; over means that there is more than that. */
    ghost predicate Valid()
      reads this, source
    {
      source.Valid() && left == limit - |handed| && |handed| <= limit && handed <= source.data
      && source.pos == |handed| + (if over then 1 else 0) && (over ==> |handed| == limit)
    }

    method Read(room: nat, arriving: nat) returns (r: ReadResult)
      requires Valid()
      modifies this, source
      ensures Valid()
      ensures r.Bytes? ==> handed == old(handed) + r.chunk && |r.chunk| <= room && over == old(over) == false
      ensures r.TooLarge? <==> over
      ensures r.TooLarge? ==> handed == old(handed) == source.data[..limit] && |source.data| > limit
      ensures old(over) ==> source.pos == old(source.pos)
      ensures |old(handed)| == limit < |source.data| && arriving > 0 ==> r.TooLarge?
      ensures |source.data| <= limit ==> r.Bytes?
      ensures |old(handed)| < limit && |old(handed)| < |source.data| && arriving > 0 && room > 0 ==>
                r.Bytes? && r.chunk != ""
    {
      if over {
        return TooLarge;
      }
      if left <= 0 {
        var probe := source.Read(1, arriving);
        if |probe| > 0 {
          over := true;
          return TooLarge;
        }
        return Bytes("");
      }
      var chunk := source.Read(if room > left then left else room, arriving);
      left := left - |chunk|;
      handed := handed + chunk;
      return Bytes(chunk);
    }
  }
}
