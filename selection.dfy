/**
 * The name-selection lists of the bill-split panel and the create-event
 * dialog (components/BillSplitPanel.tsx, components/CreateEventDialog.tsx):
 * both toggle a name with `prev.includes(name) ? prev.filter(m => m !== name)
 * : [...prev, name]`.
 */
module Selection {
  import opened Seqs

  /** `prev.filter((m) => m !== name)`. */
  function Without(s: seq<string>, name: string): seq<string>
  {
    Filter(s, (m: string) => m != name)
  }

  /** The toggle both components apply to their selection. */
  function Toggle(s: seq<string>, name: string): seq<string>
  {
    if name in s then Without(s, name) else s + [name]
  }

  /** Removing a name drops every occurrence of it and keeps every other
      name as often as it was there. */
  lemma WithoutCounts(s: seq<string>, name: string, other: string)
    ensures multiset(Without(s, name))[name] == 0
    ensures other != name ==> multiset(Without(s, name))[other] == multiset(s)[other]
  {
    FilterCount(s, (m: string) => m != name, name);
    FilterCount(s, (m: string) => m != name, other);
  }

  /** Toggling flips whether the name is selected and leaves every other
      name as selected as it was: a present name goes away entirely, an
      absent one is added once at the end. */
  lemma ToggleFlips(s: seq<string>, name: string, other: string)
    ensures name in Toggle(s, name) <==> name !in s
    ensures other != name ==> multiset(Toggle(s, name))[other] == multiset(s)[other]
    ensures name !in s ==> Toggle(s, name) == s + [name]
    ensures name in s ==> multiset(Toggle(s, name))[name] == 0
  {
    WithoutCounts(s, name, other);
    if name in s {
      assert multiset(Without(s, name))[name] == 0;
    }
  }

  /** Removing a name that is not there changes nothing. */
  lemma WithoutAbsent(s: seq<string>, name: string)
    requires name !in s
    ensures Without(s, name) == s
  {
    FilterAllKept(s, (m: string) => m != name);
  }

  /** Toggling an absent name twice gives back the original selection. */
  lemma ToggleTwiceAbsent(s: seq<string>, name: string)
    requires name !in s
    ensures Toggle(Toggle(s, name), name) == s
  {
    FilterSnoc(s, name, (m: string) => m != name);
    WithoutAbsent(s, name);
  }

  /** Toggling a present name twice moves it to the end, once. */
  lemma ToggleTwicePresent(s: seq<string>, name: string)
    requires name in s
    ensures Toggle(Toggle(s, name), name) == Without(s, name) + [name]
  {
    WithoutCounts(s, name, name);
    assert name !in Without(s, name);
  }
}
