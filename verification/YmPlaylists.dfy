/** Titles, chunks and chunk keys of the Yandex import playlists. */
module YmPlaylists {
  import opened Options

  type Urn = string

  const PLAYLIST_NAME := "Yandex Music"
  const PLAYLIST_TRACK_LIMIT: nat := 500
  const NUL := 0 as char

  // ------------------------------------------------------------ decimal numbers

  predicate IsDigit(c: char) { '0' <= c <= '9' }

  predicate AllDigits(s: string) { forall i | 0 <= i < |s| :: IsDigit(s[i]) }

  function Digit(d: nat): char
    requires d < 10
  {
    ('0' as int + d) as char
  }

  function Decimal(n: nat): (s: string)
    ensures s != "" && AllDigits(s)
  {
    if n < 10 then [Digit(n)] else Decimal(n / 10) + [Digit(n % 10)]
  }

  function Parse(s: string): nat
    requires AllDigits(s)
  {
    if s == "" then 0 else Parse(s[..|s| - 1]) * 10 + (s[|s| - 1] as int - '0' as int)
  }

  lemma {:induction false} ParseOfDecimal(n: nat)
    ensures Parse(Decimal(n)) == n
  {
    var s := Decimal(n);
    if n < 10 {
      assert s[..0] == "";
    } else {
      ParseOfDecimal(n / 10);
      assert s[..|s| - 1] == Decimal(n / 10);
    }
  }

  lemma {:induction false} ParseIsPositive(s: string)
    requires s != "" && AllDigits(s) && s[0] != '0'
    ensures Parse(s) > 0
  {
    if |s| > 1 {
      ParseIsPositive(s[..|s| - 1]);
    } else {
      assert s[..0] == "";
    }
  }

  lemma TensAndOnes(p: nat, d: nat)
    requires d < 10
    ensures (p * 10 + d) / 10 == p && (p * 10 + d) % 10 == d
  {
  }

  lemma {:induction false} DecimalOfParse(s: string)
    requires s != "" && AllDigits(s) && s[0] != '0'
    ensures Decimal(Parse(s)) == s
  {
    var front, d := s[..|s| - 1], s[|s| - 1] as int - '0' as int;
    assert s == front + [Digit(d)];
    TensAndOnes(Parse(front), d);
    if front == "" {
      assert Parse(s) == d;
    } else {
      ParseIsPositive(front);
      DecimalOfParse(front);
      assert Decimal(Parse(front) * 10 + d) == Decimal(Parse(front)) + [Digit(d)];
    }
  }

  lemma {:induction false} DecimalHasNoLeadingZero(n: nat)
    requires n > 0
    ensures Decimal(n)[0] != '0'
  {
    if n >= 10 {
      DecimalHasNoLeadingZero(n / 10);
    }
  }

  // ------------------------------------------------------------ titles

  function PlaylistName(index: nat): string {
    if index == 0 then PLAYLIST_NAME else PLAYLIST_NAME + " " + Decimal(index + 1)
  }

  // The digits behind "Yandex Music ", if the title has that shape.
  function TitleDigits(title: string): Option<string> {
    if |title| > 13 && title[..13] == PLAYLIST_NAME + " " && AllDigits(title[13..])
    then Some(title[13..]) else None
  }

  function ChunkIndex(title: string): Option<nat> {
    if title == PLAYLIST_NAME then Some(0) else
    match TitleDigits(title)
    case None => None
    case Some(digits) => if Parse(digits) >= 2 then Some(Parse(digits) - 1) else None
  }

  lemma NameDigits(index: nat)
    requires index > 0
    ensures TitleDigits(PlaylistName(index)) == Some(Decimal(index + 1))
  {
    var head, digits := PLAYLIST_NAME + " ", Decimal(index + 1);
    assert |head| == 13 && PlaylistName(index) == head + digits;
    assert (head + digits)[..13] == head && (head + digits)[13..] == digits;
  }

  /** A chunk's title is read back as its index. */
  lemma TitleRoundTrip(index: nat)
    ensures ChunkIndex(PlaylistName(index)) == Some(index)
  {
    if index > 0 {
      NameDigits(index);
      ParseOfDecimal(index + 1);
      assert |PlaylistName(index)| > |PLAYLIST_NAME|;
    }
  }

  /** A title read as an index is that index's own title unless its number has a leading zero. */
  lemma TitleOfIndex(title: string)
    requires ChunkIndex(title).Some?
    ensures PlaylistName(ChunkIndex(title).value) == title <==>
            title == PLAYLIST_NAME || TitleDigits(title).value[0] != '0'
  {
    if title != PLAYLIST_NAME {
      var digits, index := TitleDigits(title).value, ChunkIndex(title).value;
      assert title == (PLAYLIST_NAME + " ") + digits;
      if digits[0] != '0' {
        DecimalOfParse(digits);
      } else {
        NameDigits(index);
        DecimalHasNoLeadingZero(index + 1);
      }
    }
  }

  // ------------------------------------------------------------ chunks

  function Chunks<T>(items: seq<T>, size: nat): (chunks: seq<seq<T>>)
    requires size > 0
    decreases |items|
  {
    if items == [] then []
    else if |items| <= size then [items]
    else [items[..size]] + Chunks(items[size..], size)
  }

  function Flatten<T>(chunks: seq<seq<T>>): seq<T> {
    if chunks == [] then [] else chunks[0] + Flatten(chunks[1..])
  }

  method ChunkArray<T>(items: seq<T>, size: nat) returns (chunks: seq<seq<T>>)
    requires size > 0
    ensures chunks == Chunks(items, size)
  {
    chunks := [];
    var i := 0;
    while i < |items|
      invariant 0 <= i
      invariant Chunks(items, size) == chunks + if i < |items| then Chunks(items[i..], size) else []
    {
      var end := if i + size < |items| then i + size else |items|;
      NextChunk(items, size, i, end);
      chunks := chunks + [items[i..end]];
      i := i + size;
    }
  }

  // The rest of the list is a chunk and what comes after it.
  lemma NextChunk<T>(items: seq<T>, size: nat, i: nat, end: nat)
    requires size > 0 && i < |items| && end == if i + size < |items| then i + size else |items|
    ensures Chunks(items[i..], size) ==
            [items[i..end]] + if i + size < |items| then Chunks(items[i + size..], size) else []
  {
    var rest := items[i..];
    if |rest| > size {
      assert rest[..size] == items[i..end] && rest[size..] == items[i + size..];
    } else {
      assert items[i..end] == rest;
    }
  }

  /** Chunks lose nothing and reorder nothing. */
  lemma {:induction false} ChunksPartition<T>(items: seq<T>, size: nat)
    requires size > 0
    ensures Flatten(Chunks(items, size)) == items
    decreases |items|
  {
    if |items| > size {
      ChunksPartition(items[size..], size);
      assert items == items[..size] + items[size..];
      assert Chunks(items, size)[1..] == Chunks(items[size..], size);
    } else if items != [] {
      assert Chunks(items, size)[1..] == [];
    }
  }

  /** Each chunk holds between 1 and `size` items of the list. */
  lemma {:induction false} ChunkSizes<T>(items: seq<T>, size: nat, i: nat)
    requires size > 0 && i < |Chunks(items, size)|
    ensures 0 < |Chunks(items, size)[i]| <= size
    ensures forall x | x in Chunks(items, size)[i] :: x in items
    decreases |items|
  {
    if |items| > size && i > 0 {
      ChunkSizes(items[size..], size, i - 1);
    }
  }

  /** Chunk i is the stretch of `size` items from i * size on, as far as the list goes. */
  lemma {:induction false} ChunkAt<T>(items: seq<T>, size: nat, i: nat)
    requires size > 0
    ensures i < |Chunks(items, size)| <==> i * size < |items|
    ensures i < |Chunks(items, size)| ==>
              var end := if i * size + size < |items| then i * size + size else |items|;
              Chunks(items, size)[i] == items[i * size..end]
    decreases i
  {
    if i > 0 {
      assert i * size == (i - 1) * size + size;
      if |items| > size {
        ChunkAt(items[size..], size, i - 1);
      } else {
        assert (i - 1) * size >= 0;
      }
    }
  }

  /** Longer lists have at least as many chunks. */
  lemma {:induction false} ChunkCountGrows<T>(a: seq<T>, b: seq<T>, size: nat)
    requires size > 0 && |a| <= |b|
    ensures |Chunks(a, size)| <= |Chunks(b, size)|
    decreases |a|
  {
    if |a| > size {
      ChunkCountGrows(a[size..], b[size..], size);
    }
  }

  // ------------------------------------------------------------ keys

  predicate Clean(urn: Urn) { forall i | 0 <= i < |urn| :: urn[i] != NUL }

  predicate CleanChunk(chunk: seq<Urn>) {
    chunk != [] && forall i | 0 <= i < |chunk| :: Clean(chunk[i])
  }

  // chunk.join('\u0000')
  function Key(chunk: seq<Urn>): string {
    if chunk == [] then "" else if |chunk| == 1 then chunk[0] else chunk[0] + [NUL] + Key(chunk[1..])
  }

  // Where the first NUL is, or the length.
  function FirstNul(s: string): (n: nat)
    ensures n <= |s|
    ensures forall i | 0 <= i < n :: s[i] != NUL
    ensures n < |s| ==> s[n] == NUL
  {
    if s == "" || s[0] == NUL then 0 else 1 + FirstNul(s[1..])
  }

  lemma KeySplits(chunk: seq<Urn>)
    requires CleanChunk(chunk)
    ensures FirstNul(Key(chunk)) == |chunk[0]|
    ensures Key(chunk)[..|chunk[0]|] == chunk[0]
    ensures |chunk| == 1 <==> |Key(chunk)| == |chunk[0]|
    ensures |chunk| > 1 ==> Key(chunk)[|chunk[0]| + 1..] == Key(chunk[1..])
  {
    assert Clean(chunk[0]);
    if |chunk| > 1 {
      JoinSplits(chunk[0], Key(chunk[1..]));
    } else {
      NulAt(chunk[0], |chunk[0]|);
    }
  }

  lemma NulAt(s: string, n: nat)
    requires n <= |s| && (forall i | 0 <= i < n :: s[i] != NUL) && (n < |s| ==> s[n] == NUL)
    ensures FirstNul(s) == n
  {
  }

  lemma JoinSplits(first: Urn, rest: string)
    requires Clean(first)
    ensures var s := first + [NUL] + rest;
            FirstNul(s) == |first| && s[..|first|] == first && s[|first| + 1..] == rest
  {
    NulAt(first + [NUL] + rest, |first|);
  }

  /** Equal keys mean equal chunks. */
  lemma {:induction false} KeyIsInjective(a: seq<Urn>, b: seq<Urn>)
    requires CleanChunk(a) && CleanChunk(b) && Key(a) == Key(b)
    ensures a == b
    decreases |a|
  {
    KeySplits(a);
    KeySplits(b);
    if |a| > 1 {
      assert CleanChunk(a[1..]) && CleanChunk(b[1..]);
      KeyIsInjective(a[1..], b[1..]);
      assert a == [a[0]] + a[1..] && b == [b[0]] + b[1..];
    }
  }
}
