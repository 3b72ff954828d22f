/**
 * The organizer's three taxonomies as ordered data: the one-shot and loop
 * instrument tables and the two-level genre table. Order is declaration order
 * (Python dicts keep insertion order). Each pattern is a regular expression kept
 * as text; what it matches is decided by a `Matcher`, standing for
 * `re.search(pattern, text, re.IGNORECASE) is not None`.
 */
module PatternTables {

  /** One bucket of a taxonomy: its key and its patterns. */
  datatype Rule = Rule(key: string, patterns: seq<string>)

  /** A genre family ("Electronic", "Live") with its genre rules. */
  datatype Family = Family(name: string, genres: seq<Rule>)

  /** Whether a pattern matches somewhere in a text. */
  type Matcher = (string, string) -> bool

  /**
   * The innermost loop of both `_categorize` and `_detect_genres`: the
   * patterns in order, stopping at the first one that matches.
   */
  method AnyPatternMatches(patterns: seq<string>, m: Matcher, text: string) returns (hit: bool)
    ensures hit <==> exists q :: 0 <= q < |patterns| && m(patterns[q], text)
  {
    hit := false;
    var k := 0;
    while k < |patterns| && !hit
      invariant 0 <= k <= |patterns|
      invariant hit <==> exists q :: 0 <= q < k && m(patterns[q], text)
    {
      hit := m(patterns[k], text);
      k := k + 1;
    }
  }

  /** The three taxonomies the classifiers consult. */
  datatype Taxonomies = Taxonomies(oneShots: seq<Rule>, loops: seq<Rule>, genres: seq<Family>)

  /** One-shot instrument categories. */
  const OneShotTable: seq<Rule> := [
    Rule("Kicks", [@"(?:^|[\s_/])kicks?(?:[\s_/]|$)", @"(?:^|[\s_/])kck(?:[\s_/]|$)", @"(?:^|[\s_/])bd(?:[\s_/]|$)", @"(?:^|[\s_/])bass[_\s]?drum"]),
    Rule("Snares", [@"(?:^|[\s_/])snares?(?:[\s_/]|$)", @"(?:^|[\s_/])snr(?:[\s_/]|$)", @"(?:^|[\s_/])sd(?:[\s_/]|$)", @"(?:^|[\s_/])rimshot", @"(?:^|[\s_/])claps?(?:[\s_/]|$)"]),
    Rule("HiHats", [@"hi[_\s-]?hats?", @"(?:^|[\s_/])hats?(?:[\s_/]|$)", @"(?:^|[\s_/])hh(?:[\s_/]|$)", @"(?:^|[\s_/])closed(?:[\s_/]|$)", @"(?:^|[\s_/])open(?:[\s_/]|$)"]),
    Rule("Cymbals", [@"(?:^|[\s_/])cymbals?(?:[\s_/]|$)", @"(?:^|[\s_/])crash", @"(?:^|[\s_/])ride(?:[\s_/]|$)", @"(?:^|[\s_/])china", @"(?:^|[\s_/])splash"]),
    Rule("Percussion", [@"(?:^|[\s_/])percs?(?:[\s_/]|$)", @"(?:^|[\s_/])percussion", @"(?:^|[\s_/])toms?(?:[\s_/]|$)", @"(?:^|[\s_/])bongo", @"(?:^|[\s_/])conga", @"(?:^|[\s_/])shaker", @"(?:^|[\s_/])tambourine", @"(?:^|[\s_/])cowbell", @"(?:^|[\s_/])claves", @"(?:^|[\s_/])triangle", @"(?:^|[\s_/])rim(?:[\s_/]|$)"]),
    Rule("FX", [@"(?:^|[\s_/])fx(?:[\s_/]|$)", @"(?:^|[\s_/])effects?(?:[\s_/]|$)", @"(?:^|[\s_/])riser", @"(?:^|[\s_/])downlifter", @"(?:^|[\s_/])impacts?(?:[\s_/]|$)", @"(?:^|[\s_/])sweep", @"(?:^|[\s_/])transition", @"(?:^|[\s_/])foley", @"(?:^|[\s_/])noise", @"(?:^|[\s_/])textures?(?:[\s_/]|$)"]),
    Rule("Synths", [@"(?:^|[\s_/])synths?(?:[\s_/]|$)", @"(?:^|[\s_/])leads?(?:[\s_/]|$)", @"(?:^|[\s_/])pads?(?:[\s_/]|$)", @"(?:^|[\s_/])chords?(?:[\s_/]|$)", @"(?:^|[\s_/])arps?(?:[\s_/]|$)", @"(?:^|[\s_/])plucks?(?:[\s_/]|$)", @"(?:^|[\s_/])stabs?(?:[\s_/]|$)", @"(?:^|[\s_/])keys(?:[\s_/]|$)", @"(?:^|[\s_/])piano", @"(?:^|[\s_/])organ"]),
    Rule("Bass", [@"(?:^|[\s_/])bass(?:[\s_/]|$)", @"(?:^|[\s_/])sub(?:[\s_/]|$)", @"(?:^|[\s_/])808(?:[\s_/]|$)", @"(?:^|[\s_/])reese"]),
    Rule("Vocals", [@"(?:^|[\s_/])vocals?(?:[\s_/]|$)", @"(?:^|[\s_/])vox(?:[\s_/]|$)", @"(?:^|[\s_/])voice", @"(?:^|[\s_/])spoken", @"(?:^|[\s_/])chant", @"(?:^|[\s_/])adlib", @"(?:^|[\s_/])shout"])
  ]

  /** Loop instrument categories. */
  const LoopTable: seq<Rule> := [
    Rule("Drums", [@"(?:^|[\s_/])drums?(?:[\s_/]|$)", @"(?:^|[\s_/])beats?(?:[\s_/]|$)", @"(?:^|[\s_/])groove", @"(?:^|[\s_/])breaks?(?:[\s_/]|$)", @"(?:^|[\s_/])tops?(?:[\s_/]|$)", @"(?:^|[\s_/])full(?:[\s_/]|$)"]),
    Rule("Bass", [@"(?:^|[\s_/])bass(?:[\s_/]|$)", @"(?:^|[\s_/])sub(?:[\s_/]|$)", @"(?:^|[\s_/])808(?:[\s_/]|$)", @"(?:^|[\s_/])reese"]),
    Rule("Synths", [@"(?:^|[\s_/])synths?(?:[\s_/]|$)", @"(?:^|[\s_/])leads?(?:[\s_/]|$)", @"(?:^|[\s_/])arps?(?:[\s_/]|$)", @"(?:^|[\s_/])plucks?(?:[\s_/]|$)", @"(?:^|[\s_/])stabs?(?:[\s_/]|$)", @"(?:^|[\s_/])chords?(?:[\s_/]|$)", @"(?:^|[\s_/])keys(?:[\s_/]|$)", @"melod"]),
    Rule("Pads", [@"(?:^|[\s_/])pads?(?:[\s_/]|$)", @"(?:^|[\s_/])atmosphere", @"(?:^|[\s_/])ambient", @"(?:^|[\s_/])textures?(?:[\s_/]|$)", @"(?:^|[\s_/])drone"]),
    Rule("FX", [@"(?:^|[\s_/])fx(?:[\s_/]|$)", @"(?:^|[\s_/])effects?(?:[\s_/]|$)", @"(?:^|[\s_/])riser", @"(?:^|[\s_/])downlifter", @"(?:^|[\s_/])transition"]),
    Rule("Percussion", [@"(?:^|[\s_/])percs?(?:[\s_/]|$)", @"(?:^|[\s_/])hats?(?:[\s_/]|$)", @"(?:^|[\s_/])shaker", @"(?:^|[\s_/])tambourine"]),
    Rule("Vocals", [@"(?:^|[\s_/])vocals?(?:[\s_/]|$)", @"(?:^|[\s_/])vox(?:[\s_/]|$)", @"(?:^|[\s_/])voice", @"(?:^|[\s_/])hook", @"(?:^|[\s_/])chant"])
  ]

  /** Genre families and their genres. */
  const GenreTable: seq<Family> := [
    Family("Electronic", [
      Rule("Techno", [@"techno", @"industrial", @"minimal", @"ebm", @"hard[_\s-]?techno", @"acid[_\s-]?techno", @"berlin", @"warehouse"]),
      Rule("House", [@"house", @"deep[_\s-]?house", @"tech[_\s-]?house", @"future[_\s-]?house", @"bass[_\s-]?house", @"jackin", @"chicago[_\s-]?house", @"garage[_\s-]?house", @"progressive[_\s-]?house", @"tropical"]),
      Rule("Drum_and_Bass", [@"drum[_\s-]?(and|&|n)[_\s-]?bass", @"dnb", @"d&b", @"d[_\s-]?n[_\s-]?b", @"jungle", @"liquid", @"neuro", @"jump[_\s-]?up", @"breakcore"]),
      Rule("Dubstep", [@"dubstep", @"riddim", @"brostep", @"tearout", @"deep[_\s-]?dubstep", @"melodic[_\s-]?dubstep", @"colour[_\s-]?bass", @"color[_\s-]?bass"]),
      Rule("Garage", [@"uk[_\s-]?garage", @"ukg", @"2[_\s-]?step", @"speed[_\s-]?garage", @"bassline", @"4x4"]),
      Rule("Footwork", [@"footwork", @"juke", @"chicago[_\s-]?footwork", @"160[_\s-]?bpm"]),
      Rule("Trap", [@"trap", @"hip[_\s-]?hop", @"crunk", @"dirty[_\s-]?south", @"atlanta", @"phonk", @"memphis", @"boom[_\s-]?bap", @"rap", @"beats"]),
      Rule("Drill", [@"drill", @"uk[_\s-]?drill", @"ny[_\s-]?drill", @"chicago[_\s-]?drill", @"brooklyn[_\s-]?drill"]),
      Rule("Grime", [@"grime", @"uk[_\s-]?bass", @"8[_\s-]?bar", @"140[_\s-]?bpm"]),
      Rule("Trance", [@"trance", @"psytrance", @"psy[_\s-]?trance", @"progressive[_\s-]?trance", @"uplifting", @"goa", @"hardstyle", @"hard[_\s-]?dance"]),
      Rule("Ambient", [@"ambient", @"experimental", @"downtempo", @"chill[_\s-]?out", @"idm", @"electronica", @"soundscape", @"drone", @"atmospheric"]),
      Rule("Disco", [@"disco", @"nu[_\s-]?disco", @"funk", @"boogie", @"italo", @"cosmic"]),
      Rule("Synthwave", [@"synthwave", @"retrowave", @"outrun", @"vaporwave", @"80s", @"synth[_\s-]?pop", @"electro[_\s-]?pop"]),
      Rule("Lo-Fi", [@"lo[_\s-]?fi", @"lofi", @"chill[_\s-]?hop", @"chillhop", @"jazzy", @"dusty", @"tape", @"vinyl", @"bedroom"]),
      Rule("Pop", [@"pop", @"edm", @"mainstream", @"radio", @"commercial", @"dance[_\s-]?pop", @"future[_\s-]?pop", @"electro[_\s-]?pop"]),
      Rule("Drum_Machines", [@"808", @"909", @"707", @"727", @"606", @"303", @"cr[_\s-]?78", @"tr[_\s-]?808", @"tr[_\s-]?909", @"linndrum", @"linn[_\s-]?drum", @"dmx", @"oberheim", @"sp[_\s-]?1200", @"sp[_\s-]?12", @"mpc", @"drum[_\s-]?machine", @"vintage[_\s-]?drum", @"analog[_\s-]?drum"])
    ]),
    Family("Live", [
      Rule("Rock", [@"rock", @"indie", @"alternative", @"metal", @"grunge", @"hard[_\s-]?rock", @"prog[_\s-]?rock", @"classic[_\s-]?rock", @"guitar[_\s-]?driven"]),
      Rule("Punk", [@"punk", @"post[_\s-]?punk", @"new[_\s-]?wave", @"no[_\s-]?wave", @"hardcore", @"pop[_\s-]?punk", @"emo", @"screamo"]),
      Rule("Darkwave", [@"darkwave", @"dark[_\s-]?wave", @"coldwave", @"cold[_\s-]?wave", @"goth", @"gothic", @"deathrock", @"ethereal", @"witch[_\s-]?house"]),
      Rule("Jazz", [@"jazz", @"fusion", @"bebop", @"swing", @"big[_\s-]?band", @"smooth[_\s-]?jazz", @"acid[_\s-]?jazz", @"nu[_\s-]?jazz", @"broken[_\s-]?beat"]),
      Rule("Soul", [@"soul", @"r&b", @"rnb", @"r[_\s-]?and[_\s-]?b", @"motown", @"neo[_\s-]?soul", @"gospel", @"rhythm[_\s-]?and[_\s-]?blues"]),
      Rule("Dub", [@"dub", @"reggae", @"roots", @"dancehall", @"ska", @"rocksteady", @"steppas", @"digital[_\s-]?dub"]),
      Rule("Blues", [@"blues", @"delta", @"chicago[_\s-]?blues", @"electric[_\s-]?blues", @"slide[_\s-]?guitar", @"12[_\s-]?bar"]),
      Rule("Folk", [@"folk", @"country", @"americana", @"acoustic", @"singer[_\s-]?songwriter", @"bluegrass", @"celtic", @"irish", @"appalachian"]),
      Rule("Classical", [@"classical", @"orchestral", @"cinematic", @"film[_\s-]?score", @"strings", @"brass", @"woodwind", @"symphony", @"chamber", @"epic", @"trailer", @"score"]),
      Rule("World", [@"world", @"ethnic", @"latin", @"african", @"afro", @"middle[_\s-]?eastern", @"arabic", @"indian", @"asian", @"brazilian", @"cuban", @"flamenco", @"tribal", @"percussion"]),
      Rule("Acoustic", [@"acoustic", @"live[_\s-]?drum", @"real[_\s-]?drum", @"studio[_\s-]?drum", @"recorded", @"live[_\s-]?kit", @"natural", @"organic"])
    ])
  ]

  /** The taxonomies as the program declares them. */
  const SourceTaxonomies: Taxonomies := Taxonomies(OneShotTable, LoopTable, GenreTable)
}
