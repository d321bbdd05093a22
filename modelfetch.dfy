/** Fetching the decoder model with a persistent cache (`downloadModel`,
    `getFromIndexedDB` and `saveToIndexedDB` in app/SAM2.js). The cache is
    the "models" object store of the "SAM2Models" IndexedDB database, keyed
    by the last path segment of the URL. */
module ModelFetch {
  import opened Wrappers
  import opened Half

  // ---- The cache key ----

  /** `s.split(sep)` for a one-character separator: the pieces between
      separators, in order, including empty ones; never an empty list. */
  function Split(s: string, sep: char): (parts: seq<string>)
    ensures |parts| >= 1
    decreases |s|
  {
    if |s| == 0 then [""]
    else
      var rest := Split(s[1..], sep);
      if s[0] == sep then [""] + rest else [[s[0]] + rest[0]] + rest[1..]
  }

  /** `parts.join(sep)`. */
  function Join(parts: seq<string>, sep: char): string
    requires |parts| >= 1
    decreases |parts|
  {
    if |parts| == 1 then parts[0] else parts[0] + [sep] + Join(parts[1..], sep)
  }

  /** Splitting loses nothing and cuts at every separator: joining the
      pieces gives the string back, and no piece holds a separator. */
  lemma {:induction false} SplitJoin(s: string, sep: char)
    ensures Join(Split(s, sep), sep) == s
    ensures forall i :: 0 <= i < |Split(s, sep)| ==> sep !in Split(s, sep)[i]
    decreases |s|
  {
    if |s| > 0 {
      var rest := Split(s[1..], sep);
      SplitJoin(s[1..], sep);
      var parts := Split(s, sep);
      if s[0] == sep {
        assert parts == [""] + rest && parts[1..] == rest;
        assert s == [s[0]] + s[1..];
        forall i | 0 <= i < |parts|
          ensures sep !in parts[i]
        {
          if i > 0 {
            assert parts[i] == rest[i - 1];
          }
        }
      } else {
        assert parts[1..] == rest[1..];
        if |rest| == 1 {
          assert Join(parts, sep) == [s[0]] + s[1..];
        } else {
          assert Join(rest, sep) == rest[0] + [sep] + Join(rest[1..], sep);
          assert Join(parts, sep) == [s[0]] + rest[0] + [sep] + Join(rest[1..], sep);
        }
        assert s == [s[0]] + s[1..];
        forall i | 0 <= i < |parts|
          ensures sep !in parts[i]
        {
          if i > 0 {
            assert parts[i] == rest[i];
          } else {
            assert parts[0] == [s[0]] + rest[0];
          }
        }
      }
    }
  }

  /** The joined string ends with the last piece, after a separator when
      there is more than one piece. */
  lemma {:induction false} JoinEndsWithLast(parts: seq<string>, sep: char)
    requires |parts| >= 1
    ensures var last := parts[|parts| - 1];
            var j := Join(parts, sep);
            |last| <= |j| && j[|j| - |last|..] == last &&
            (|parts| > 1 ==> |last| < |j| && j[|j| - |last| - 1] == sep)
    decreases |parts|
  {
    if |parts| > 1 {
      JoinEndsWithLast(parts[1..], sep);
      assert parts[1..][|parts[1..]| - 1] == parts[|parts| - 1];
      var tail := Join(parts[1..], sep);
      var j := Join(parts, sep);
      assert j == (parts[0] + [sep]) + tail;
      var last := parts[|parts| - 1];
      assert j[|j| - |last|..] == tail[|tail| - |last|..];
      if |parts| == 2 {
        assert tail == last;
        assert j[|j| - |last| - 1] == ([sep] + tail)[0];
      } else {
        assert j[|j| - |last| - 1] == tail[|tail| - |last| - 1];
      }
    }
  }

  /** `url.split('/').pop()`. */
  function Filename(url: string): string
  {
    var parts := Split(url, '/');
    parts[|parts| - 1]
  }

  /** The cache key is the URL's last path segment: a suffix of the URL with
      no '/', preceded by '/' unless it is the whole URL. */
  lemma FilenameIsLastSegment(url: string)
    ensures var f := Filename(url);
            |f| <= |url| && url[|url| - |f|..] == f && '/' !in f &&
            (|f| < |url| ==> url[|url| - |f| - 1] == '/')
  {
    var parts := Split(url, '/');
    SplitJoin(url, '/');
    JoinEndsWithLast(parts, '/');
    assert '/' !in parts[|parts| - 1];
  }

  /** A string with no separator is one piece. */
  lemma {:induction false} SplitNoSeparator(s: string, sep: char)
    requires sep !in s
    ensures Split(s, sep) == [s]
    decreases |s|
  {
    if |s| > 0 {
      SplitNoSeparator(s[1..], sep);
      assert s == [s[0]] + s[1..];
    }
  }

  /** The last piece is whatever follows the last separator. */
  lemma {:induction false} SplitLastPiece(p: string, sep: char, f: string)
    requires sep !in f
    ensures var parts := Split(p + [sep] + f, sep);
            |parts| >= 2 && parts[|parts| - 1] == f
    decreases |p|
  {
    var s := p + [sep] + f;
    if |p| == 0 {
      assert s[1..] == f;
      SplitNoSeparator(f, sep);
    } else {
      assert s[1..] == p[1..] + [sep] + f;
      SplitLastPiece(p[1..], sep, f);
    }
  }

  /** The decoder model's URL gives the key "sam2.1_hiera_tiny_decoder.onnx". */
  lemma DecoderFilename()
    ensures Filename(DecoderUrl) == "sam2.1_hiera_tiny_decoder.onnx"
  {
    var name := "sam2.1_hiera_tiny_decoder.onnx";
    var dir := "https://huggingface.co/flyvi/sam2.1/resolve/main";
    assert DecoderUrl == dir + ['/'] + name;
    SplitLastPiece(dir, '/', name);
  }

  /** `DECODER_URL` (app/SAM2.js:37-38). */
  const DecoderUrl: string :=
    "https://huggingface.co/flyvi/sam2.1/resolve/main/sam2.1_hiera_tiny_decoder.onnx"

  // ---- The cache ----

  /** The bytes of an `ArrayBuffer`. */
  type Buffer = seq<byte>

  /** Whether opening the database and reading from / writing to the store
      rejects on this call (quota, private browsing, a blocked upgrade). */
  datatype StoreFaults = StoreFaults(readFails: bool, writeFails: bool)

  /** `fetch(url).then(r => r.arrayBuffer())`: the body, or the network error. */
  type Fetch = string -> Result<Buffer>

  /** The persistent "models" object store. */
  class ModelStore {
    var entries: map<string, Buffer>

    constructor(entries: map<string, Buffer>)
      ensures this.entries == entries
    {
      this.entries := entries;
    }

    /** `getFromIndexedDB` (app/SAM2.js:90-112): the stored buffer, `undefined`
        (None) when the key is absent, or a rejection. */
    method Get(filename: string, faults: StoreFaults) returns (r: Result<Option<Buffer>>)
      ensures faults.readFails <==> r.Err?
      ensures r.Ok? ==> r.value == (if filename in entries then Some(entries[filename]) else None)
    {
      if faults.readFails {
        return Err("IndexedDB read failed");
      }
      if filename in entries {
        return Ok(Some(entries[filename]));
      }
      return Ok(None);
    }

    /** `saveToIndexedDB` (app/SAM2.js:114-136): `store.put(buffer, filename)`
        replaces the entry, unless the write rejects. */
    method Put(filename: string, buffer: Buffer, faults: StoreFaults) returns (r: Result<()>)
      modifies this
      ensures faults.writeFails <==> r.Err?
      ensures entries == if r.Ok? then old(entries)[filename := buffer] else old(entries)
    {
      if faults.writeFails {
        return Err("IndexedDB write failed");
      }
      entries := entries[filename := buffer];
      return Ok(());
    }
  }

  /** What `downloadModel` yields (or null) and what the store holds after. */
  datatype Outcome = Outcome(buffer: Option<Buffer>, entries: map<string, Buffer>, fetched: bool)

  /** The cache policy of `downloadModel` (app/SAM2.js:51-88): a stored
      buffer is returned as is; otherwise the URL is fetched, a failed fetch
      gives null, and the fetched buffer is stored and returned even when
      storing it fails. Store failures are only logged. */
  function Download(entries: map<string, Buffer>, url: string, faults: StoreFaults, fetch: Fetch): (o: Outcome)
    ensures o.fetched <==> faults.readFails || Filename(url) !in entries
    ensures !o.fetched ==> o.buffer == Some(entries[Filename(url)]) && o.entries == entries
    ensures o.fetched ==> (o.buffer.Some? <==> fetch(url).Ok?)
    ensures o.fetched && fetch(url).Ok? ==> o.buffer == Some(fetch(url).value)
    ensures o.fetched && fetch(url).Ok? && !faults.writeFails ==>
              o.entries == entries[Filename(url) := fetch(url).value]
    ensures !(o.fetched && fetch(url).Ok? && !faults.writeFails) ==> o.entries == entries
  {
    var name := Filename(url);
    if !faults.readFails && name in entries then Outcome(Some(entries[name]), entries, false)
    else match fetch(url)
      case Err(_) => Outcome(None, entries, true)
      case Ok(b) => Outcome(Some(b), if faults.writeFails then entries else entries[name := b], true)
  }

  /** Once a download has been stored, the next download of the same URL,
      with a readable store, is served from the cache with the same bytes,
      whatever the network does by then. */
  lemma SecondDownloadHitsCache(entries: map<string, Buffer>, url: string, f1: StoreFaults, f2: StoreFaults,
                                fetch1: Fetch, fetch2: Fetch)
    requires fetch1(url).Ok? && !f1.writeFails && !f2.readFails
    ensures var first := Download(entries, url, f1, fetch1);
            var second := Download(first.entries, url, f2, fetch2);
            !second.fetched && second.buffer == first.buffer && second.entries == first.entries
  {
  }

  /** The cache is keyed by file name alone: a URL whose last segment equals
      that of a stored one is answered with the stored bytes, without being
      fetched. */
  lemma SameFilenameSharesEntry(entries: map<string, Buffer>, url1: string, url2: string,
                                f1: StoreFaults, f2: StoreFaults, fetch: Fetch)
    requires Filename(url1) == Filename(url2)
    requires fetch(url1).Ok? && !f1.writeFails && !f2.readFails
    ensures var first := Download(entries, url1, f1, fetch);
            var second := Download(first.entries, url2, f2, fetch);
            !second.fetched && second.buffer == first.buffer
  {
  }

  /** A failing store never makes a download fail: when the network
      delivers, the buffer is returned whatever the store does. */
  lemma StoreFaultsAreHarmless(entries: map<string, Buffer>, url: string, faults: StoreFaults, fetch: Fetch)
    requires fetch(url).Ok?
    ensures Download(entries, url, faults, fetch).buffer.Some?
  {
  }
}
