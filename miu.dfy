/** examples/artwork/MiU.py: the MiU artwork wrapped around a template's document. */
module MiU {
  import opened Text

  /** The fifteen lines of art, each seventy characters wide. */
  const Art: seq<string> := [
    "。                  *              °               °。               +  ",
    "   *     °。       ⢀⡴⠞⢳                                                ",
    "      .          ⡔⠋ ⢰⠎    ..      °。         +                *       ",
    "   °。    .。    ⣼⢆⣤⡞⠃                                  。               ",
    "        *       ⣼⢠⠋⠁     °。     MiU PROUDLY PRESENTS             °    ",
    "   。  ⢀⣀⣾⢳    ⢸⢠⠃      .                                 +            ",
    "  ⣀⡤⠴⠊⠉  ⠈⠳⡀  ⠘⢎⠢⣀⣀⣀       .                °                         ",
    "  ⠳⣄  ⡠⡤⡀ ⠘⣇⡀   ⠉⠓⠒⠺⠭⢵⣦⡀     *      °。                    °           ",
    "   ⢹⡆ ⢷⡇⠁  ⣸⠇  。  ⢠⢤  ⠘⢷⣆⡀                    *    .           *      ",
    "    ⠘⠒⢤⡄⠖⢾⣭⣤⣄ ⡔⢢ ⡀⠎⣸    ⠹⣿⡀  GREETS:                    *             ",
    "  . ⢀⡤⠜⠃  ⠘⠛⣿⢸ ⡼⢠⠃⣤⡟     ⣿⡇   -RPG, -playWEB                          ",
    "    ⠸⠶⠖⢏  ⢀⡤⠤⠇⣴⠏⡾⢱⡏⠁    ⢠⣿⠃                       *       +           ",
    "       ⠈⣇⡀⠿    ⡽⣰⢶⡼⠇    ⣠⣿⠟    °。    *                                ",
    "  +.    ⠈⠳⢤⣀⡶⠤⣷⣅⡀   ⣀⡠⢔⠕⠁                     °。     *      。         ",
    "     。    °。  ⠈⠙⠫⠿⠿⠿⠛⠋⠁   .+     °               .                    "
  ]

  /** The padding width of the general branch. */
  const Width := 70

  /** The two footer lines: the group tag and the timestamp, each centred in seventy columns. */
  function Footer(now: string): seq<string> {
    [Center("{ MiU x nfog }", Width), Center(now, Width)]
  }

  /** The width of the release line: the eleven-character label and the release name. */
  function ReleaseNameWidth(releaseName: string): nat {
    11 + |releaseName|
  }

  /** The padding width of a line: 70, or the release-line width when the line is a label line (holds " : ") and that is wider. */
  function PadWidth(x: string, releaseWidth: nat): (w: int)
    ensures !Contains(x, " : ") ==> w == Width
    ensures Contains(x, " : ") ==> w == if releaseWidth > Width then releaseWidth else Width
  {
    if Contains(x, " : ") then (if Width > releaseWidth then Width else releaseWidth) else Width
  }

  /** Every line left-justified to its padding width. */
  function Padded(lines: seq<string>, releaseWidth: nat): (r: seq<string>)
    ensures |r| == |lines|
    ensures forall i :: 0 <= i < |lines| ==> r[i] == LJust(lines[i], PadWidth(lines[i], releaseWidth))
  {
    if lines == [] then [] else [LJust(lines[0], PadWidth(lines[0], releaseWidth))] + Padded(lines[1..], releaseWidth)
  }

  /** The lines the general branch pads: art, a blank line, the template's lines, the rule and the footer. */
  function Inner(nfo: seq<string>, now: string): seq<string> {
    Art + [""] + nfo + ["\n[hr][/hr]\n"] + Footer(now)
  }

  /** The template's lines without the first two. */
  function DropTwo(nfo: seq<string>): seq<string> {
    if |nfo| <= 2 then [] else nfo[2..]
  }

  /**
   * The lines `with_template` joins. `nfo` is the template's document,
   * `fileExt` its `file_ext`, `releaseName` its `release_name` and `now` the
   * formatted clock.
   */
  function Lines(nfo: string, fileExt: string, releaseName: string, now: string): seq<string> {
    var lines := SplitLines(nfo);
    if fileExt != ".nfo" then
      ["[align=center]"] + Padded(Inner(lines, now), ReleaseNameWidth(releaseName)) + ["[/align]"]
    else
      Art + [""] + DropTwo(lines) + ["", Center("-- --", Width)] + Footer(now)
  }

  /** The artwork wrapped around a template's text: the `.nfo` layout or the centred BBCode one. */
  function WithTemplate(nfo: string, fileExt: string, releaseName: string, now: string): string {
    Join(Lines(nfo, fileExt, releaseName, now), "\n")
  }

  /** A `.nfo` output: the art, a blank line, the template's lines from the third on, a blank line, the centred "-- --" and the footer. */
  lemma NfoBranch(nfo: string, releaseName: string, now: string)
    ensures var l := Lines(nfo, ".nfo", releaseName, now);
      var kept := DropTwo(SplitLines(nfo));
      |l| == |kept| + 20
      && l[..15] == Art && l[15] == ""
      && l[16..16 + |kept|] == kept
      && l[16 + |kept|] == "" && l[17 + |kept|] == Center("-- --", Width)
      && l[18 + |kept|..] == Footer(now)
  {
    var kept := DropTwo(SplitLines(nfo));
    var l := Lines(nfo, ".nfo", releaseName, now);
    assert l == Art + [""] + kept + ["", Center("-- --", Width)] + Footer(now);
    assert l[..15] == Art;
    assert l[16..16 + |kept|] == kept;
    assert l[18 + |kept|..] == Footer(now);
  }

  /** Exactly the first two physical lines of the template are dropped. */
  lemma DropsTwo(lines: seq<string>)
    ensures |DropTwo(lines)| == if |lines| <= 2 then 0 else |lines| - 2
    ensures forall i :: 0 <= i < |DropTwo(lines)| ==> DropTwo(lines)[i] == lines[i + 2]
  {
  }

  /** Any other output: "[align=center]", every inner line padded, "[/align]". */
  lemma OtherBranch(nfo: string, fileExt: string, releaseName: string, now: string)
    requires fileExt != ".nfo"
    ensures var l := Lines(nfo, fileExt, releaseName, now);
      var inner := Inner(SplitLines(nfo), now);
      |l| == |inner| + 2
      && l[0] == "[align=center]" && l[|l| - 1] == "[/align]"
      && forall i :: 0 <= i < |inner| ==> l[i + 1] == LJust(inner[i], PadWidth(inner[i], ReleaseNameWidth(releaseName)))
  {
  }

  /** The inner lines are the art, a blank line, the template's lines, the rule and the footer, in that order. */
  lemma InnerOrder(lines: seq<string>, now: string)
    ensures var inner := Inner(lines, now);
      |inner| == |lines| + 19
      && inner[..15] == Art && inner[15] == ""
      && inner[16..16 + |lines|] == lines
      && inner[16 + |lines|] == "\n[hr][/hr]\n"
      && inner[17 + |lines|..] == Footer(now)
  {
    var inner := Inner(lines, now);
    assert inner[..15] == Art;
    assert inner[16..16 + |lines|] == lines;
    assert inner[17 + |lines|..] == Footer(now);
  }

  /** Padding never truncates: a padded line is the line followed by spaces, as long as the line or the width, whichever is more. */
  lemma PaddingKeepsLine(x: string, releaseWidth: nat)
    ensures var w := PadWidth(x, releaseWidth);
      var r := LJust(x, w);
      |r| == (if w <= |x| then |x| else w) && r[..|x|] == x
      && forall j :: |x| <= j < |r| ==> r[j] == ' '
  {
    var r := LJust(x, PadWidth(x, releaseWidth));
    assert r[..|x|] == x;
  }

  /** The release line contains " : ", so it is padded to its own width and never beyond what it needs. */
  lemma ReleaseLineWidth(releaseName: string)
    ensures var x := "Release  : " + releaseName;
      PadWidth(x, ReleaseNameWidth(releaseName)) == if |x| > Width then |x| else Width
  {
    var x := "Release  : " + releaseName;
    assert x[8..11] == " : ";
    ContainsAt(x, " : ", 8);
  }

  /** Label lines no longer than the release line all come out the same width, so the column of values lines up. */
  lemma LabelLinesAlign(x: string, y: string, releaseName: string)
    requires Contains(x, " : ") && Contains(y, " : ")
    requires |x| <= ReleaseNameWidth(releaseName) || |x| <= Width
    requires |y| <= ReleaseNameWidth(releaseName) || |y| <= Width
    ensures var w := ReleaseNameWidth(releaseName);
      |LJust(x, PadWidth(x, w))| == |LJust(y, PadWidth(y, w))|
  {
  }

  /** `%Y.%m.%d %H:%M`: four digits, ".", two, ".", two, " ", two, ":", two. */
  predicate Timestamp(now: string) {
    |now| == 16
    && AllDigits(now[..4]) && now[4] == '.' && AllDigits(now[5..7]) && now[7] == '.'
    && AllDigits(now[8..10]) && now[10] == ' ' && AllDigits(now[11..13]) && now[13] == ':'
    && AllDigits(now[14..])
  }

  /** The group tag is centred with 28 spaces on either side. */
  lemma TagCentred(now: string)
    ensures Footer(now)[0] == Repeat(' ', 28) + "{ MiU x nfog }" + Repeat(' ', 28)
  {
    var tag := "{ MiU x nfog }";
    assert |tag| == 14;
    CenterEven(tag, Width);
  }

  /** A timestamp is centred with 27 spaces on either side. */
  lemma ClockCentred(now: string)
    requires Timestamp(now)
    ensures Footer(now)[1] == Repeat(' ', 27) + now + Repeat(' ', 27)
  {
    CenterEven(now, Width);
  }
}
