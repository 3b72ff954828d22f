/**
 * `SampleOrganizer._is_loop`: decides from the path text alone whether a
 * sample is a loop (true) or a one-shot (false), by rules of fixed priority.
 */
module LoopType {
  import opened PathText

  /** Folder indicators of a loop, matched against the lower-cased path. */
  const LoopFolders: seq<string> := [
    "/loops/", "/loop/", "/drum_loops/", "/synth_loops/",
    "/bass_loops/", "/percussion_loops/", "/vocal_loops/",
    "/fx_loops/", "/melodic_loops/", "/music_loops/",
    "/hat_loops/", "/kick_loops/", "/top_loops/"
  ]

  /** Folder indicators of a one-shot, matched against the lower-cased path. */
  const OneShotFolders: seq<string> := [
    "/one_shots/", "/one-shots/", "/oneshots/", "/one_shot/",
    "/hits/", "/drum_hits/", "/samples/", "/drum_one_shots/"
  ]

  predicate IsDigit(c: char)
  {
    '0' <= c <= '9'
  }

  /** `re.search(r'^\d{2,3}_', stem)`: two or three leading digits, then '_'. */
  predicate HasBpmPrefix(stem: string)
  {
    && |stem| >= 3 && IsDigit(stem[0]) && IsDigit(stem[1])
    && (stem[2] == '_' || (|stem| >= 4 && IsDigit(stem[2]) && stem[3] == '_'))
  }

  /** Some indicator of the list occurs in the text. */
  predicate AnyIndicator(text: string, indicators: seq<string>)
  {
    exists k :: 0 <= k < |indicators| && Contains(text, indicators[k])
  }

  /** The filename rules, applied to the lower-cased stem. */
  predicate StemMarksLoop(stem: string)
  {
    Contains(stem, "_loop") || Contains(stem, "loop_") || HasBpmPrefix(stem)
  }

  /**
   * The decision, rule by rule: a loop folder, else a one-shot folder, else the
   * stem's loop token or BPM prefix, else one-shot.
   */
  predicate IsLoopPath(path: string)
  {
    var low := Lower(path);
    if AnyIndicator(low, LoopFolders) then true
    else if AnyIndicator(low, OneShotFolders) then false
    else StemMarksLoop(Lower(PathStem(path)))
  }

  /** `_is_loop`: the folder lists scanned in order with an early return. */
  method IsLoop(path: string) returns (loop: bool)
    ensures loop == IsLoopPath(path)
  {
    var low := Lower(path);
    for k := 0 to |LoopFolders|
      invariant forall j :: 0 <= j < k ==> !Contains(low, LoopFolders[j])
    {
      if Contains(low, LoopFolders[k]) {
        return true;
      }
    }
    for k := 0 to |OneShotFolders|
      invariant forall j :: 0 <= j < k ==> !Contains(low, OneShotFolders[j])
    {
      if Contains(low, OneShotFolders[k]) {
        return false;
      }
    }
    var stem := Lower(PathStem(path));
    if Contains(stem, "_loop") || Contains(stem, "loop_") {
      return true;
    }
    if HasBpmPrefix(stem) {
      return true;
    }
    return false;
  }

  /** Rule 1: a directory named like a loop folder, in any case, makes the sample a loop. */
  lemma LoopFolderWins(above: string, dir: string, below: string)
    requires "/" + Lower(dir) + "/" in LoopFolders
    ensures IsLoopPath(above + "/" + dir + "/" + below)
  {
    var path := above + "/" + dir + "/" + below;
    LowerAroundSegment(above, dir, below);
    var k :| 0 <= k < |LoopFolders| && LoopFolders[k] == "/" + Lower(dir) + "/";
    assert Lower(path) == Lower(above) + LoopFolders[k] + Lower(below);
    ContainsInfix(Lower(above), LoopFolders[k], Lower(below));
  }

  /**
   * Rule 2: without a loop folder, a directory named like a one-shot folder
   * makes the sample a one-shot, whatever its stem says (a "_loop" included).
   */
  lemma OneShotFolderBeatsStem(above: string, dir: string, below: string)
    requires "/" + Lower(dir) + "/" in OneShotFolders
    requires !AnyIndicator(Lower(above + "/" + dir + "/" + below), LoopFolders)
    ensures !IsLoopPath(above + "/" + dir + "/" + below)
  {
    var path := above + "/" + dir + "/" + below;
    LowerAroundSegment(above, dir, below);
    var k :| 0 <= k < |OneShotFolders| && OneShotFolders[k] == "/" + Lower(dir) + "/";
    assert Lower(path) == Lower(above) + OneShotFolders[k] + Lower(below);
    ContainsInfix(Lower(above), OneShotFolders[k], Lower(below));
  }

  /** Rule 3: without folder indicators, a "_loop" or "loop_" token in the stem makes a loop. */
  lemma LoopTokenInStem(path: string)
    requires !AnyIndicator(Lower(path), LoopFolders) && !AnyIndicator(Lower(path), OneShotFolders)
    requires Contains(Lower(PathStem(path)), "_loop") || Contains(Lower(PathStem(path)), "loop_")
    ensures IsLoopPath(path)
  {
  }

  /** Rule 4: without folder indicators, a stem opening with two or three digits and '_' is a loop. */
  lemma BpmPrefixMakesLoop(path: string)
    requires !AnyIndicator(Lower(path), LoopFolders) && !AnyIndicator(Lower(path), OneShotFolders)
    requires HasBpmPrefix(Lower(PathStem(path)))
    ensures IsLoopPath(path)
  {
  }

  /** `^\d{2,3}_` accepts two or three digits before '_' and rejects one or four. */
  lemma BpmPrefixShapes(d1: char, d2: char, d3: char, rest: string)
    requires IsDigit(d1) && IsDigit(d2) && IsDigit(d3)
    ensures HasBpmPrefix([d1, d2, '_'] + rest)
    ensures HasBpmPrefix([d1, d2, d3, '_'] + rest)
    ensures !HasBpmPrefix([d1, d2, d3, d3, '_'] + rest)
    ensures !HasBpmPrefix([d1, '_'] + rest)
  {
  }

  /** Rule 5: with no indicator anywhere, the sample is a one-shot. */
  lemma DefaultIsOneShot(path: string)
    requires !AnyIndicator(Lower(path), LoopFolders) && !AnyIndicator(Lower(path), OneShotFolders)
    requires !StemMarksLoop(Lower(PathStem(path)))
    ensures !IsLoopPath(path)
  {
  }

  /** The drum-loop example: a "Loops" folder makes any sample below it a loop. */
  lemma DrumLoopExample()
    ensures IsLoopPath("/Splice/sounds/packs/SomePack/Loops/Drum_Loop_140bpm.wav")
  {
    assert Lower("Loops") == "loops";
    assert "/" + Lower("Loops") + "/" == LoopFolders[0];
    assert "/Splice/sounds/packs/SomePack/Loops/Drum_Loop_140bpm.wav"
      == "/Splice/sounds/packs/SomePack" + "/" + "Loops" + "/" + "Drum_Loop_140bpm.wav";
    LoopFolderWins("/Splice/sounds/packs/SomePack", "Loops", "Drum_Loop_140bpm.wav");
  }
}
