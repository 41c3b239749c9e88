/** The check that decides whether an uploaded product image is kept:
    `allowed_file` in app.py, with the extension set ALLOWED_EXTENSIONS. */
module Uploads {
  import opened Wrappers

  /** The accepted image extensions, in lower case. */
  const AllowedExtensions: set<string> := {"png", "jpg", "jpeg", "gif"}

  /** Lower-casing of one character. Only A-Z change: no other character
      lower-cases to a string made only of letters of the accepted
      extensions, so this agrees with Python's `str.lower` wherever
      membership in AllowedExtensions is concerned. */
  function LowerChar(c: char): char {
    if 'A' <= c <= 'Z' then (c as int + 32) as char else c
  }

  function Lower(s: string): (r: string)
    ensures |r| == |s|
  {
    seq(|s|, i requires 0 <= i < |s| => LowerChar(s[i]))
  }

  /** The text after the last '.', as `filename.rsplit('.', 1)[1]`
      gives it, or None when the name has no '.' at all. */
  function Extension(f: string): (r: Option<string>)
    ensures r.None? <==> '.' !in f
    ensures r.Some? ==>
      && |r.value| < |f|
      && f[|f| - |r.value| - 1] == '.'
      && f[|f| - |r.value|..] == r.value
      && '.' !in r.value
  {
    if |f| == 0 then None
    else if f[|f| - 1] == '.' then Some([])
    else
      var front := f[..|f| - 1];
      assert f == front + [f[|f| - 1]];
      match Extension(front)
      case None => None
      case Some(e) =>
        assert f[|f| - |e| - 2] == front[|front| - |e| - 1];
        assert f[|f| - |e| - 1..] == front[|front| - |e|..] + [f[|f| - 1]];
        Some(e + [f[|f| - 1]])
  }

  /** `allowed_file`: the name has a '.', and the text after the last one,
      lower-cased, is an accepted extension. */
  predicate AllowedFile(f: string) {
    match Extension(f)
    case None => false
    case Some(e) => Lower(e) in AllowedExtensions
  }

  /** AllowedFile accepts exactly the names with a '.' at some position i,
      no '.' after i, and an accepted extension (in any case) after i. */
  lemma AllowedFileIff(f: string)
    ensures AllowedFile(f) <==>
      exists i :: 0 <= i < |f| && f[i] == '.' && '.' !in f[i + 1..]
                  && Lower(f[i + 1..]) in AllowedExtensions
  {
  }

  /** The extension of a lower-cased name is the lower-cased extension. */
  lemma {:induction false} ExtensionOfLower(f: string)
    ensures Extension(Lower(f)) == (match Extension(f)
                                    case None => None
                                    case Some(e) => Some(Lower(e)))
    decreases |f|
  {
    if |f| > 0 {
      var n := |f|;
      var front := f[..n - 1];
      assert Lower(f)[..n - 1] == Lower(front);
      if f[n - 1] != '.' {
        ExtensionOfLower(front);
        match Extension(front)
        case None =>
        case Some(e) =>
          assert Lower(e + [f[n - 1]]) == Lower(e) + [LowerChar(f[n - 1])];
      }
    }
  }

  /** Whether a name is accepted does not depend on its case. */
  lemma AllowedFileIgnoresCase(f: string)
    ensures AllowedFile(Lower(f)) == AllowedFile(f)
  {
    ExtensionOfLower(f);
    match Extension(f)
    case None =>
    case Some(e) =>
      assert Lower(Lower(e)) == Lower(e);
  }

  /** Examples: an upper-case extension is accepted; a name whose last
      extension is not an image, or which has no '.', is rejected. */
  lemma AllowedFileExamples()
    ensures AllowedFile("x.PNG")
    ensures AllowedFile(".gif")
    ensures !AllowedFile("x.png.exe")
    ensures !AllowedFile("png")
    ensures !AllowedFile("photo.")
  {
    assert Extension("x.PNG") == Some("PNG");
    assert Lower("PNG") == "png";
    assert Extension(".gif") == Some("gif");
    assert Lower("gif") == "gif";
    assert Extension("x.png.exe") == Some("exe");
    assert Lower("exe") == "exe";
    assert Extension("photo.") == Some("");
  }
}
