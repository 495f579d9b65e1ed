/** The cover MIME classification (crates/vbt/src/utils/url.rs): the
    extension of the path's last component, as Rust's `Path::extension`
    computes it, matched case-sensitively against `png`, `jpg` and `jpeg`. */
module Mime {
  import opened Wrappers
  import opened Text

  const Png: string := "image/png"
  const Jpeg: string := "image/jpeg"
  const OctetStream: string := "application/octet-stream"

  /** The last component that is neither empty nor `.`, scanning `/`-separated
      segments from the back. */
  function LastComponent(segments: seq<string>): (r: Option<string>)
    ensures r.Some? ==> r.value in segments && r.value != "" && r.value != "."
    ensures r.None? ==> forall s :: s in segments ==> s == "" || s == "."
  {
    if segments == [] then None
    else
      var last := segments[|segments| - 1];
      var init := segments[..|segments| - 1];
      assert segments == init + [last];
      if last == "" || last == "." then LastComponent(init) else Some(last)
  }

  /** `Path::file_name`: the last normal component; none when the path has
      no component or ends in `..`. */
  function FileName(path: string): (r: Option<string>)
    ensures r.Some? ==> r.value != "" && r.value != "." && r.value != ".." && '/' !in r.value
  {
    var segments := Split(path, '/');
    match LastComponent(segments)
    case Some(name) => if name == ".." then None else Some(name)
    case None => None
  }

  /** The index of the last `c` in `s`, if any. */
  function LastIndexOf(s: string, c: char): (r: Option<nat>)
    ensures r.Some? ==> r.value < |s| && s[r.value] == c && c !in s[r.value + 1..]
    ensures r.None? ==> c !in s
  {
    if s == [] then None
    else if s[|s| - 1] == c then Some(|s| - 1)
    else
      var r := LastIndexOf(s[..|s| - 1], c);
      assert s == s[..|s| - 1] + [s[|s| - 1]];
      r
  }

  /** `Path::extension` of a file name: the text after its last `.`, unless
      there is no `.` or the only text before it is empty (a dot file). */
  function ExtensionOf(name: string): (r: Option<string>)
    ensures r.Some? ==> '.' !in r.value
  {
    match LastIndexOf(name, '.')
    case None => None
    case Some(i) => if i == 0 then None else Some(name[i + 1..])
  }

  function Extension(path: string): Option<string> {
    match FileName(path)
    case None => None
    case Some(name) => ExtensionOf(name)
  }

  /** `get_mime_type`. */
  function MimeType(path: string): (m: string)
    ensures m == Png || m == Jpeg || m == OctetStream
    ensures m == Png <==> Extension(path) == Some("png")
    ensures m == Jpeg <==> (Extension(path) == Some("jpg") || Extension(path) == Some("jpeg"))
  {
    match Extension(path)
    case Some(ext) =>
      if ext == "png" then Png
      else if ext == "jpg" || ext == "jpeg" then Jpeg
      else OctetStream
    case None => OctetStream
  }

  lemma {:induction false} LastIndexOfAppend(a: string, c: char, b: string)
    requires c !in b
    ensures LastIndexOf(a + [c] + b, c) == Some(|a|)
  {
    if b == [] {
      assert a + [c] + b == a + [c];
    } else {
      var s := a + [c] + b;
      assert s[..|s| - 1] == a + [c] + b[..|b| - 1];
      assert s[|s| - 1] == b[|b| - 1];
      LastIndexOfAppend(a, c, b[..|b| - 1]);
    }
  }

  /** A name with a non-empty stem has as extension the text after its last dot. */
  lemma ExtensionAfterLastDot(stem: string, ext: string)
    requires stem != "" && '.' !in ext
    ensures ExtensionOf(stem + "." + ext) == Some(ext)
  {
    LastIndexOfAppend(stem, '.', ext);
    assert (stem + "." + ext)[|stem| + 1..] == ext;
  }

  /** The file name of `dir/name` (or of `name` alone) is `name`, for a
      name that is a normal component. */
  lemma FileNameIsLastComponent(dir: string, name: string)
    requires '/' !in name && name != "" && name != "." && name != ".."
    ensures FileName(dir + "/" + name) == Some(name)
    ensures FileName(name) == Some(name)
  {
    SplitNoSeparator(name, '/');
    SplitConcat(dir, name, '/');
    assert dir + "/" + name == dir + ['/'] + name;
    var segments := Split(dir, '/') + [name];
    assert segments[..|segments| - 1] == Split(dir, '/');
  }

  /** The MIME type of a cover path follows the extension of its final
      component: `png`, then `jpg`/`jpeg`, compared exactly. */
  lemma MimeOfPath(dir: string, stem: string, ext: string)
    requires stem != "" && stem != "." && '/' !in stem && '/' !in ext && '.' !in ext
    ensures var m := if ext == "png" then Png else if ext == "jpg" || ext == "jpeg" then Jpeg else OctetStream;
            MimeType(dir + "/" + stem + "." + ext) == m && MimeType(stem + "." + ext) == m
  {
    var name := stem + "." + ext;
    assert name[|stem|] == '.';
    assert '/' !in name by {
      forall i | 0 <= i < |name| ensures name[i] != '/' {
        if i < |stem| { assert name[i] == stem[i]; }
        else if i > |stem| { assert name[i] == ext[i - |stem| - 1]; }
      }
    }
    if |name| == 2 {
      assert name[0] == stem[0] && stem == [stem[0]];
    }
    FileNameIsLastComponent(dir, name);
    assert dir + "/" + stem + "." + ext == dir + "/" + name;
    ExtensionAfterLastDot(stem, ext);
  }

  /** `a.b.jpeg` is a JPEG: the last dot counts. */
  lemma JpegAfterLastDot()
    ensures MimeType("a.b" + "." + "jpeg") == Jpeg
  {
    MimeOfPath("", "a.b", "jpeg");
  }

  /** A query string is not stripped: `c.png?x=1` is not a PNG. */
  lemma QueryNotStripped(dir: string)
    ensures MimeType(dir + "/c" + "." + "png?x=1") == OctetStream
  {
    MimeOfPath(dir, "c", "png?x=1");
    assert dir + "/c" == dir + "/" + "c";
  }

  /** The extension is compared without case folding: `cover.PNG` is not a PNG. */
  lemma ExtensionCaseSensitive()
    ensures MimeType("cover" + "." + "PNG") == OctetStream
  {
    MimeOfPath("", "cover", "PNG");
  }
}
