/**
 * The two file names main.js derives: the name a download is saved under (main.js:526)
 * and the project name an imported file gets (main.js:547).
 */
module FileNames {
  import opened Wrappers
  import opened JsStrings

  /** The characters `[^a-zA-Z0-9-_]` leaves alone: ASCII letters and digits, `-` and `_`. */
  predicate Allowed(c: char) {
    ('a' <= c <= 'z') || ('A' <= c <= 'Z') || ('0' <= c <= '9') || c == '-' || c == '_'
  }

  predicate AllAllowed(s: string) {
    forall i :: 0 <= i < |s| ==> Allowed(s[i])
  }

  /** `s.replace(/[^a-zA-Z0-9-_]/g, '_')`: every other character becomes an underscore. */
  function Sanitize(s: string): (r: string)
    ensures |r| == |s|
    ensures forall i :: 0 <= i < |s| ==> r[i] == if Allowed(s[i]) then s[i] else '_'
  {
    if s == [] then [] else [if Allowed(s[0]) then s[0] else '_'] + Sanitize(s[1..])
  }

  /**
   * The download name of main.js:526: the project's name, or `README` when there is no current
   * project or its name is empty, sanitised, with `.md` appended.
   */
  function DownloadName(projectName: Option<string>): string {
    var base := if projectName.Some? && projectName.value != [] then projectName.value else "README";
    Sanitize(base) + ".md"
  }

  /** Sanitising leaves only allowed characters and changes nothing in a name made of them. */
  lemma SanitizeAllowed(s: string)
    ensures AllAllowed(Sanitize(s))
    ensures Sanitize(s) == s <==> AllAllowed(s)
  {
    if AllAllowed(s) {
      assert forall i :: 0 <= i < |s| ==> Sanitize(s)[i] == s[i];
    }
  }

  /** Sanitising twice is sanitising once. */
  lemma SanitizeIdempotent(s: string)
    ensures Sanitize(Sanitize(s)) == Sanitize(s)
  {
    SanitizeAllowed(s);
    SanitizeAllowed(Sanitize(s));
  }

  /**
   * A download name is a sanitised base of the same length followed by `.md`; a name made of
   * allowed characters is kept as it is, and without a name the file is `README.md`.
   */
  lemma DownloadNameShape(projectName: Option<string>)
    ensures var r := DownloadName(projectName);
      EndsWith(r, ".md") && AllAllowed(r[..|r| - 3])
    ensures projectName.Some? && projectName.value != [] ==> |DownloadName(projectName)| == |projectName.value| + 3
    ensures projectName.Some? && projectName.value != [] && AllAllowed(projectName.value) ==>
      DownloadName(projectName) == projectName.value + ".md"
    ensures projectName.None? || projectName.value == [] ==> DownloadName(projectName) == "README.md"
  {
    var base := if projectName.Some? && projectName.value != [] then projectName.value else "README";
    SanitizeAllowed(base);
    MarkdownName(Sanitize(base));
    if base == "README" {
      ReadmeAllowed();
    }
  }

  lemma ReadmeAllowed()
    ensures Sanitize("README") + ".md" == "README.md"
  {
    assert AllAllowed("README");
    SanitizeAllowed("README");
    assert "README" + ".md" == "README.md";
  }

  lemma MarkdownName(b: string)
    ensures var r := b + ".md";
      EndsWith(r, ".md") && r[..|r| - 3] == b
  {
    var r := b + ".md";
    assert r[..|r| - 3] == b;
    assert r[|r| - 3..] == ".md";
  }

  // ----- Import -----

  /** The extensions `\.(md|markdown|txt)$` removes. */
  const Extensions: seq<string> := [".md", ".markdown", ".txt"]

  /**
   * `name.replace(/\.(md|markdown|txt)$/, '')`: one of the three extensions removed from the end.
   * At most one of them can end a name, so the order they are tried in does not matter.
   */
  function ImportName(fileName: string): (r: string)
    ensures |r| <= |fileName| && fileName[..|r|] == r
  {
    if EndsWith(fileName, ".md") then fileName[..|fileName| - 3]
    else if EndsWith(fileName, ".markdown") then fileName[..|fileName| - 9]
    else if EndsWith(fileName, ".txt") then fileName[..|fileName| - 4]
    else fileName
  }

  /** The name before a recognised extension is what the imported project is called. */
  lemma ImportStripsExtension(name: string, ext: string)
    requires ext in Extensions
    ensures ImportName(name + ext) == name
  {
    var f := name + ext;
    assert f[..|name|] == name;
    if ext == ".markdown" {
      assert f[|f| - 3..] == "own";
    } else if ext == ".txt" {
      assert f[|f| - 3..] == "txt";
      if |f| >= 9 {
        assert f[|f| - 9..][8] == 't';
      }
    }
  }

  /** A name without a recognised extension is kept whole; otherwise exactly the extension goes. */
  lemma ImportKeepsOtherNames(fileName: string)
    ensures (forall ext :: ext in Extensions ==> !EndsWith(fileName, ext)) ==> ImportName(fileName) == fileName
    ensures ImportName(fileName) == fileName ||
      exists ext :: ext in Extensions && fileName == ImportName(fileName) + ext
  {
    var r := ImportName(fileName);
    if r != fileName {
      var ext := fileName[|r|..];
      assert fileName == r + ext;
      assert ext in Extensions;
    }
  }
}
