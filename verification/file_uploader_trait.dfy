/** The file-uploader trait: fetch a file by URL, keep it as Base64 together
    with a MIME type guessed from the URL, and build a Claude `document`
    content block from what was kept. The fetch itself is an input: `None`
    stands for `file_get_contents` returning false, `Some(bytes)` for the
    content it returned. */
module FileUploaderTrait {
  import opened Php
  import opened Optional
  import Base64

  /** The two properties the trait adds to its host class; both start null. */
  datatype Uploader = Uploader(fileBase64: Option<string>, fileMimeType: Option<string>)

  const Unloaded := Uploader(None, None)

  /** The state after a fluent call, and the message of the exception it
      threw, if any. A call that returns normally returns the object itself. */
  datatype Fluent = Fluent(self: Uploader, thrown: Option<string>)

  const Incomplete := "File data is incomplete. Ensure the file is loaded and MIME type is determined."
  const OctetStream := "application/octet-stream"

  /** The extension table of `determineMimeType`. */
  const MimeTypes: map<string, string> := map[
    "pdf" := "application/pdf",
    "doc" := "application/msword",
    "docx" := "application/vnd.openxmlformats-officedocument.wordprocessingml.document",
    "txt" := "text/plain",
    "csv" := "text/csv",
    "json" := "application/json"
  ]

  /** `p` with every trailing `/` removed. */
  function StripTrailingSlashes(p: string): string
    decreases |p|
  {
    if |p| > 0 && p[|p| - 1] == '/' then StripTrailingSlashes(p[..|p| - 1]) else p
  }

  /** The text after the last `c` in `s`, or all of `s` when `c` does not occur. */
  function AfterLast(s: string, c: char): string
    decreases |s|
  {
    if |s| == 0 then s
    else if s[|s| - 1] == c then []
    else AfterLast(s[..|s| - 1], c) + [s[|s| - 1]]
  }

  /** PHP's `basename`: the last `/`-separated component once trailing
      slashes are dropped. */
  function Basename(p: string): string {
    AfterLast(StripTrailingSlashes(p), '/')
  }

  /** `pathinfo($p, PATHINFO_EXTENSION)`: the text after the last `.` of the
      base name, or "" when the base name has no `.`. */
  function Extension(p: string): string {
    var b := Basename(p);
    if '.' in b then AfterLast(b, '.') else ""
  }

  /** `determineMimeType($url)` */
  function DetermineMimeType(url: string): (r: string)
    ensures r != ""
    ensures r == "application/pdf" <==> Extension(url) == "pdf"
    ensures r == "application/msword" <==> Extension(url) == "doc"
    ensures r == "application/vnd.openxmlformats-officedocument.wordprocessingml.document" <==> Extension(url) == "docx"
    ensures r == "text/plain" <==> Extension(url) == "txt"
    ensures r == "text/csv" <==> Extension(url) == "csv"
    ensures r == "application/json" <==> Extension(url) == "json"
    ensures r == "application/octet-stream" <==> Extension(url) !in {"pdf", "doc", "docx", "txt", "csv", "json"}
  {
    var e := Extension(url);
    if e in MimeTypes then MimeTypes[e] else OctetStream
  }

  lemma {:induction false} AfterLastNone(s: string, c: char)
    requires c !in s
    ensures AfterLast(s, c) == s
    decreases |s|
  {
    if |s| > 0 {
      var init := s[..|s| - 1];
      assert c !in init by {
        forall i | 0 <= i < |init| ensures init[i] != c {
          assert init[i] == s[i];
        }
      }
      AfterLastNone(init, c);
      assert s == init + [s[|s| - 1]];
    }
  }

  lemma {:induction false} AfterLastSplit(front: string, c: char, tail: string)
    requires c !in tail
    ensures AfterLast(front + [c] + tail, c) == tail
    decreases |tail|
  {
    var s := front + [c] + tail;
    if |tail| == 0 {
      assert s[|s| - 1] == c;
    } else {
      assert s[..|s| - 1] == front + [c] + tail[..|tail| - 1];
      AfterLastSplit(front, c, tail[..|tail| - 1]);
      assert tail == tail[..|tail| - 1] + [tail[|tail| - 1]];
    }
  }

  /** The extension is what follows the final `.` of the final path
      component: for a path `front + name + "." + ext`, where `front` is empty
      or ends in `/` and neither `name` nor `ext` holds a `/` (nor `ext` a `.`),
      the extension is exactly `ext`, query strings and case included. */
  lemma ExtensionOf(front: string, name: string, ext: string)
    requires front == [] || front[|front| - 1] == '/'
    requires '/' !in name && '/' !in ext && '.' !in ext
    ensures Extension(front + name + "." + ext) == ext
  {
    var p := front + name + "." + ext;
    var base := name + "." + ext;
    assert p[|p| - 1] != '/' by {
      if |ext| > 0 {
        assert p[|p| - 1] == ext[|ext| - 1];
      } else {
        assert p[|p| - 1] == '.';
      }
    }
    assert StripTrailingSlashes(p) == p;
    assert '/' !in base;
    if front == [] {
      assert p == base;
      AfterLastNone(base, '/');
    } else {
      var f := front[..|front| - 1];
      assert p == f + ['/'] + base;
      AfterLastSplit(f, '/', base);
    }
    assert Basename(p) == base;
    assert base == name + ['.'] + ext;
    assert '.' in base by {
      assert base[|name|] == '.';
    }
    AfterLastSplit(name, '.', ext);
  }

  /** The lookup is exact: a listed extension maps to its type, while a
      query string, a different case or no extension at all falls back to
      the generic type. */
  lemma MimeTypeIsExact()
    ensures DetermineMimeType("d/r.pdf") == "application/pdf"
    ensures DetermineMimeType("d/r.pdf?x=1") == "application/octet-stream"
    ensures DetermineMimeType("d/r.PDF") == "application/octet-stream"
    ensures DetermineMimeType("d/notes") == "application/octet-stream"
  {
    ExtensionOfLiteral("d/r.pdf", "pdf");
    ExtensionOfLiteral("d/r.pdf?x=1", "pdf?x=1");
    ExtensionOfLiteral("d/r.PDF", "PDF");
    NoExtension();
  }

  lemma ExtensionOfLiteral(p: string, ext: string)
    requires p == "d/r." + ext
    requires '/' !in ext && '.' !in ext
    ensures Extension(p) == ext
  {
    assert p == "d/" + "r" + "." + ext;
    ExtensionOf("d/", "r", ext);
  }

  lemma NoExtension()
    ensures Extension("d/notes") == ""
  {
    var p := "d/notes";
    assert p == "d" + ['/'] + "notes";
    assert StripTrailingSlashes(p) == p;
    AfterLastSplit("d", '/', "notes");
    assert Basename(p) == "notes";
    assert '.' !in "notes";
  }

  /** `!$value` on a nullable string property. */
  predicate Missing(v: Option<string>) {
    v.None? || EmptyString(v.value)
  }

  /** `fromUrl($url)` */
  function FromUrl(u: Uploader, url: string, fetched: Option<seq<Base64.Byte>>): (r: Fluent)
    ensures fetched.None? ==> r == Fluent(u, Some("Unable to fetch the file from " + url))
    ensures fetched.Some? ==> r.thrown.None? && r.self.fileBase64.Some? && r.self.fileMimeType.Some?
    ensures fetched.Some? ==> Base64.Decode(r.self.fileBase64.value) == Some(fetched.value)
    ensures fetched.Some? ==> r.self.fileMimeType.value == DetermineMimeType(url)
  {
    match fetched
    case None => Fluent(u, Some("Unable to fetch the file from " + url))
    case Some(content) =>
      Base64.DecodeEncode(content);
      Fluent(Uploader(Some(Base64.Encode(content)), Some(DetermineMimeType(url))), None)
  }

  /** `buildPayload()` */
  function BuildPayload(u: Uploader): (r: Outcome<Json>)
    ensures r.Threw? <==> Missing(u.fileBase64) || Missing(u.fileMimeType)
    ensures r.Threw? ==> r.thrown == ExceptionThrown(Incomplete)
    ensures r.Returned? ==> r.value.JObj? && r.value.fields.Keys == {"type", "source"}
    ensures r.Returned? ==> Index(r.value, "type") == JStr("document")
    ensures r.Returned? ==> Index(r.value, "source") == JObj(map[
      "type" := JStr("base64"),
      "media_type" := JStr(u.fileMimeType.value),
      "data" := JStr(u.fileBase64.value)])
  {
    if Missing(u.fileBase64) || Missing(u.fileMimeType) then
      Threw(ExceptionThrown(Incomplete))
    else
      Returned(JObj(map[
        "type" := JStr("document"),
        "source" := JObj(map[
          "type" := JStr("base64"),
          "media_type" := JStr(u.fileMimeType.value),
          "data" := JStr(u.fileBase64.value)])]))
  }

  /** Fetching then building: the block succeeds exactly when the fetched file
      is not empty; it then carries the URL's MIME type and data that decodes
      back to the fetched bytes. A failed fetch leaves an unloaded object
      unable to build. */
  lemma FetchThenBuild(u: Uploader, url: string, fetched: Option<seq<Base64.Byte>>)
    ensures fetched.None? ==> BuildPayload(FromUrl(Unloaded, url, fetched).self).Threw?
    ensures fetched.Some? ==>
      (BuildPayload(FromUrl(u, url, fetched).self).Returned? <==> |fetched.value| > 0)
    ensures fetched.Some? && |fetched.value| > 0 ==>
      var block := BuildPayload(FromUrl(u, url, fetched).self).value;
      && Index(Index(block, "source"), "media_type") == JStr(DetermineMimeType(url))
      && Index(Index(block, "source"), "data").JStr?
      && Base64.Decode(Index(Index(block, "source"), "data").s) == Some(fetched.value)
  {
    if fetched.Some? {
      Base64.EncodeFalsy(fetched.value);
    }
  }
}
