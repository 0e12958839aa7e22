/** The shape of the chord tables that core.py, live_record_analyzer.py and analyse.py each declare. */
module ChordTables {

  /** A chord table: chord names with their pitch-class sets, in declaration order. */
  type ChordTable = seq<(string, set<string>)>
}
