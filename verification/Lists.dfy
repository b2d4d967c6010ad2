/** Comma-separated lists, as configuration variables and the proxy header carry them. */
module Lists {
  import Text

  /** `strings.Split(s, ",")`: never empty, and a text without a comma is its own only part. */
  function Split(s: string): (parts: seq<string>)
    ensures parts != []
  {
    if s == "" then [""]
    else
      var parts := Split(s[..|s| - 1]);
      if s[|s| - 1] == ',' then parts + [""]
      else parts[|parts| - 1 := parts[|parts| - 1] + [s[|s| - 1]]]
  }

  function Join(parts: seq<string>): string
    requires parts != []
  {
    if |parts| == 1 then parts[0] else Join(parts[..|parts| - 1]) + "," + parts[|parts| - 1]
  }

  /** Splitting loses nothing, and no part has a comma left. */
  lemma {:induction false} SplitJoin(s: string)
    ensures Join(Split(s)) == s
    ensures forall part <- Split(s) :: ',' !in part
  {
    if s != "" {
      var parts, last := Split(s[..|s| - 1]), s[|s| - 1];
      SplitJoin(s[..|s| - 1]);
      assert s == s[..|s| - 1] + [last];
      if last == ',' {
        assert (parts + [""])[..|parts|] == parts;
      } else {
        var longer := parts[|parts| - 1 := parts[|parts| - 1] + [last]];
        assert longer[..|parts| - 1] == parts[..|parts| - 1];
        assert parts[|parts| - 1] in parts;
      }
    }
  }

  /** The trimmed parts that are not empty, in order. */
  function TrimmedEntries(parts: seq<string>): (entries: seq<string>)
    ensures "" !in entries
  {
    if parts == [] then []
    else
      var entry := Text.TrimSpace(parts[|parts| - 1]);
      TrimmedEntries(parts[..|parts| - 1]) + if entry == "" then [] else [entry]
  }

  /** The entries of a comma-separated variable or header. */
  function Entries(value: string): seq<string> {
    TrimmedEntries(Split(Text.TrimSpace(value)))
  }

  lemma {:induction false} EntryOfPart(parts: seq<string>, i: nat)
    requires i < |parts| && Text.TrimSpace(parts[i]) != ""
    ensures Text.TrimSpace(parts[i]) in TrimmedEntries(parts)
  {
    if i < |parts| - 1 {
      EntryOfPart(parts[..|parts| - 1], i);
    }
  }

  lemma {:induction false} PartOfEntry(parts: seq<string>, entry: string)
    ensures entry in TrimmedEntries(parts) <==> entry != "" && exists part <- parts :: Text.TrimSpace(part) == entry
  {
    if parts != [] {
      PartOfEntry(parts[..|parts| - 1], entry);
      assert parts == parts[..|parts| - 1] + [parts[|parts| - 1]];
    }
  }

  /** Entries come in the order of their parts. */
  lemma {:induction false} EntriesConcat(a: seq<string>, b: seq<string>)
    ensures TrimmedEntries(a + b) == TrimmedEntries(a) + TrimmedEntries(b)
  {
    if b == [] {
      assert a + b == a;
    } else {
      assert (a + b)[..|a + b| - 1] == a + b[..|b| - 1];
      EntriesConcat(a, b[..|b| - 1]);
    }
  }

  lemma EntriesOfOne(part: string)
    ensures TrimmedEntries([part]) == if Text.TrimSpace(part) == "" then [] else [Text.TrimSpace(part)]
  {
    assert [part][..0] == [];
  }
}
