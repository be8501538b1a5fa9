/**
 * The SDK's configuration (`self.config`) and the per-line dispatch of
 * `read_config_file`. The regular expression that pulls numbers out of a line is
 * not modelled: each line arrives with the numbers it found, already converted.
 */
module Configuration {
  import opened Wrappers
  import opened Text

  /** The five boost settings, in the order the source tests their keywords. */
  datatype BoostKey = Driver | Wood | Iron | Wedge | Putter

  /** Position of a key in the source's if/elif order. */
  function Rank(k: BoostKey): nat {
    match k
    case Driver => 0
    case Wood => 1
    case Iron => 2
    case Wedge => 3
    case Putter => 4
  }

  /** The word a configuration line must contain to set the boost `k`. */
  function Keyword(k: BoostKey): string {
    match k
    case Driver => "Driver"
    case Wood => "Wood"
    case Iron => "Iron"
    case Wedge => "Wedge"
    case Putter => "Putter"
  }

  /** `self.config`: "ip_address" and the `<key>_boost` entries, each possibly absent. */
  datatype Config = Config(ipAddress: Option<string>, boosts: map<BoostKey, real>) {

    /** `self.config.get("<key>_boost", 0.0)`. */
    function Boost(k: BoostKey): real {
      if k in boosts then boosts[k] else 0.0
    }

    /** `self.config.get('ip_address', 'localhost')`. */
    function Ip(): string {
      ipAddress.GetOr("localhost")
    }
  }

  /** The configuration before any file is read (`self.config = {}`). */
  const Empty := Config(None, map[])

  /** What `read_config_file` does when no file exists (besides writing one): every boost becomes 0.0. */
  function ZeroBoosts(c: Config): Config {
    c.(boosts := c.boosts[Driver := 0.0][Wood := 0.0][Iron := 0.0][Wedge := 0.0][Putter := 0.0])
  }

  /** One line of the configuration file (newline included) and the numbers found in it. */
  datatype ConfigLine = ConfigLine(text: string, numbers: seq<real>)

  /** The boost a line names: the first keyword, in `Rank` order, that the line contains. */
  function LineKey(text: string): Option<BoostKey> {
    if Contains(Keyword(Driver), text) then Some(Driver)
    else if Contains(Keyword(Wood), text) then Some(Wood)
    else if Contains(Keyword(Iron), text) then Some(Iron)
    else if Contains(Keyword(Wedge), text) then Some(Wedge)
    else if Contains(Keyword(Putter), text) then Some(Putter)
    else None
  }

  /** `LineKey` picks a key exactly when that keyword is present and no earlier one is. */
  lemma LineKeyIsFirstKeyword(text: string, k: BoostKey)
    ensures LineKey(text) == Some(k) <==>
            Contains(Keyword(k), text) && forall j: BoostKey :: Rank(j) < Rank(k) ==> !Contains(Keyword(j), text)
  {
    if LineKey(text) == Some(k) {
      forall j: BoostKey | Rank(j) < Rank(k) ensures !Contains(Keyword(j), text) {
        assert j != k;
      }
    }
  }

  /** The line sets the address: it contains "IP". */
  predicate SetsIp(line: ConfigLine) {
    Contains("IP", line.text)
  }

  /** The line sets a boost: exactly one number was found and a keyword is present. */
  predicate SetsBoost(line: ConfigLine) {
    |line.numbers| == 1 && LineKey(line.text).Some?
  }

  /** The address an "IP" line gives: the text from index 3 on, trailing whitespace removed. */
  function IpOf(line: ConfigLine): string {
    RStrip(DropPrefix(line.text, 3))
  }

  /** The body of the `for line in config_file` loop. */
  function ApplyLine(c: Config, line: ConfigLine): (r: Config)
    ensures r.ipAddress == if SetsIp(line) then Some(IpOf(line)) else c.ipAddress
    ensures forall k :: k in r.boosts <==> k in c.boosts || (SetsBoost(line) && LineKey(line.text) == Some(k))
    ensures forall k :: k in r.boosts ==>
              r.boosts[k] == if SetsBoost(line) && LineKey(line.text) == Some(k) then line.numbers[0] else c.boosts[k]
  {
    var c' := if SetsIp(line) then c.(ipAddress := Some(IpOf(line))) else c;
    if SetsBoost(line) then c'.(boosts := c'.boosts[LineKey(line.text).value := line.numbers[0]]) else c'
  }

  /** The whole `for` loop over the lines of an existing file. */
  function ApplyConfigLines(c: Config, lines: seq<ConfigLine>): Config
    decreases |lines|
  {
    if lines == [] then c else ApplyConfigLines(ApplyLine(c, lines[0]), lines[1..])
  }

  /** Reference definition: the value of the last line that sets boost `k`, if any. */
  function LastBoost(lines: seq<ConfigLine>, k: BoostKey): Option<real>
    decreases |lines|
  {
    if lines == [] then None
    else
      var last := lines[|lines| - 1];
      if SetsBoost(last) && LineKey(last.text) == Some(k) then Some(last.numbers[0])
      else LastBoost(lines[..|lines| - 1], k)
  }

  /** Reference definition: the address of the last "IP" line, if any. */
  function LastIp(lines: seq<ConfigLine>): Option<string>
    decreases |lines|
  {
    if lines == [] then None
    else if SetsIp(lines[|lines| - 1]) then Some(IpOf(lines[|lines| - 1]))
    else LastIp(lines[..|lines| - 1])
  }

  /** Processing lines in two batches is processing them all. */
  lemma {:induction false} ApplyConfigLinesAppend(c: Config, lines: seq<ConfigLine>, line: ConfigLine)
    ensures ApplyConfigLines(c, lines + [line]) == ApplyLine(ApplyConfigLines(c, lines), line)
    decreases |lines|
  {
    if lines != [] {
      assert (lines + [line])[1..] == lines[1..] + [line];
      ApplyConfigLinesAppend(ApplyLine(c, lines[0]), lines[1..], line);
    }
  }

  /**
   * After the loop, each boost holds the number of the LAST line that set it, and a
   * boost no line set is as before; likewise the address is that of the last "IP" line.
   */
  lemma {:induction false} LastLineWins(c: Config, lines: seq<ConfigLine>)
    ensures forall k :: LastBoost(lines, k).Some? ==>
              k in ApplyConfigLines(c, lines).boosts && ApplyConfigLines(c, lines).boosts[k] == LastBoost(lines, k).value
    ensures forall k :: LastBoost(lines, k).None? ==>
              (k in ApplyConfigLines(c, lines).boosts <==> k in c.boosts) &&
              (k in c.boosts ==> ApplyConfigLines(c, lines).boosts[k] == c.boosts[k])
    ensures ApplyConfigLines(c, lines).ipAddress == if LastIp(lines).Some? then LastIp(lines) else c.ipAddress
    decreases |lines|
  {
    if lines != [] {
      var init := lines[..|lines| - 1];
      var last := lines[|lines| - 1];
      assert lines == init + [last];
      ApplyConfigLinesAppend(c, init, last);
      LastLineWins(c, init);
    }
  }

  /** `read_config_file`: the lines of an existing file, or `None` when there is no file. */
  function ReadConfig(c: Config, file: Option<seq<ConfigLine>>): Config {
    match file
    case None => ZeroBoosts(c)
    case Some(lines) => ApplyConfigLines(c, lines)
  }

  /** Without a file, every boost is set to 0.0 and the address is left alone. */
  lemma MissingFileZeroesBoosts(c: Config)
    ensures ReadConfig(c, None).ipAddress == c.ipAddress
    ensures forall k :: k in ReadConfig(c, None).boosts && ReadConfig(c, None).boosts[k] == 0.0
  {
    forall k: BoostKey ensures k in ReadConfig(c, None).boosts && ReadConfig(c, None).boosts[k] == 0.0 {
      match k
      case Driver =>
      case Wood =>
      case Iron =>
      case Wedge =>
      case Putter =>
    }
  }
}
