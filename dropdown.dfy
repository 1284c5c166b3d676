/** The option lists of the label and predictor dropdowns. */
module Dropdown {
  import opened Seqs
  import opened Ordering

  /** One dropdown entry `{"label": text, "value": value}`: a display name and the code it stands for. */
  datatype DropdownOption = DropdownOption(text: string, value: string)

  ghost predicate SortedByText(s: seq<DropdownOption>) {
    forall i, j :: 0 <= i < j < |s| ==> StrLeq(s[i].text, s[j].text)
  }

  /** Inserts `o` before the first entry whose display name is not below its own. */
  function Insert(o: DropdownOption, s: seq<DropdownOption>): (r: seq<DropdownOption>)
    ensures multiset(r) == multiset(s) + multiset{o}
  {
    if s == [] then [o]
    else if StrLeq(o.text, s[0].text) then [o] + s
    else
      assert s == [s[0]] + s[1..];
      [s[0]] + Insert(o, s[1..])
  }

  lemma {:induction false} InsertSorted(o: DropdownOption, s: seq<DropdownOption>)
    requires SortedByText(s)
    ensures SortedByText(Insert(o, s))
  {
    if s == [] {
    } else if StrLeq(o.text, s[0].text) {
      var r := Insert(o, s);
      assert r == [o] + s;
      forall i, j | 0 <= i < j < |r| ensures StrLeq(r[i].text, r[j].text) {
        if i == 0 {
          assert r[j] == s[j - 1];
          if j > 1 {
            StrLeqTransitive(o.text, s[0].text, s[j - 1].text);
          }
        } else {
          assert r[i] == s[i - 1] && r[j] == s[j - 1];
        }
      }
    } else {
      var rest := Insert(o, s[1..]);
      var r := Insert(o, s);
      assert r == [s[0]] + rest;
      InsertSorted(o, s[1..]);
      StrLeqTotal(o.text, s[0].text);
      forall i, j | 0 <= i < j < |r| ensures StrLeq(r[i].text, r[j].text) {
        if i == 0 {
          var x := r[j];
          assert x == rest[j - 1];
          assert x in multiset(rest);
          if x != o {
            assert x in multiset(s[1..]);
            var k :| 0 <= k < |s[1..]| && s[1..][k] == x;
            assert s[k + 1] == x;
          }
        } else {
          assert r[i] == rest[i - 1] && r[j] == rest[j - 1];
        }
      }
    }
  }

  /** Sorts entries by display name. */
  function SortByText(s: seq<DropdownOption>): (r: seq<DropdownOption>)
    ensures SortedByText(r)
    ensures multiset(r) == multiset(s)
  {
    if s == [] then []
    else
      assert s == [s[0]] + s[1..];
      var rest := SortByText(s[1..]);
      InsertSorted(s[0], rest);
      Insert(s[0], rest)
  }

  /** One entry per code, in the order the codes are given. */
  function Entries(codes: seq<string>, names: map<string, string>): (e: seq<DropdownOption>)
    requires forall c :: c in codes ==> c in names
  {
    seq(|codes|, i requires 0 <= i < |codes| => DropdownOption(names[codes[i]], codes[i]))
  }

  /** The entries are exactly the pairs of a code of the column and its display name. */
  lemma EntriesExact(codes: seq<string>, names: map<string, string>)
    requires forall c :: c in codes ==> c in names
    ensures forall o :: o in Entries(codes, names) <==> o.value in codes && o.value in names && o.text == names[o.value]
  {
    var e := Entries(codes, names);
    forall o: DropdownOption | o.value in codes && o.value in names && o.text == names[o.value] ensures o in e {
      var i :| 0 <= i < |codes| && codes[i] == o.value;
      assert e[i] == o;
    }
  }

  /** Sorting and then dropping repeats keeps exactly the entries it was given. */
  lemma SortedUniqueExact(s: seq<DropdownOption>)
    ensures forall o :: o in Unique(SortByText(s)) <==> o in s
  {
    var sorted := SortByText(s);
    forall o: DropdownOption ensures o in sorted <==> o in s {
      assert o in sorted <==> o in multiset(sorted);
    }
  }

  /**
   * `[{"label": names[x], "value": x} for x in df.iloc[df[col].map(names).argsort()][col].unique()]`:
   * every code of the column exactly once, ordered by display name.
   */
  function OptionsByDisplayName(codes: seq<string>, names: map<string, string>): (opts: seq<DropdownOption>)
    requires forall c :: c in codes ==> c in names
    ensures forall o :: o in opts <==> o.value in codes && o.text == names[o.value]
    ensures forall i, j :: 0 <= i < j < |opts| ==> opts[i].value != opts[j].value
    ensures forall i, j :: 0 <= i < j < |opts| ==> StrLeq(opts[i].text, opts[j].text)
  {
    var entries := Entries(codes, names);
    var sorted := SortByText(entries);
    UniqueKeepsOrder(sorted, (a: DropdownOption, b: DropdownOption) => StrLeq(a.text, b.text));
    EntriesExact(codes, names);
    SortedUniqueExact(entries);
    var opts := Unique(sorted);
    assert forall i, j :: 0 <= i < j < |opts| ==> opts[i].value != opts[j].value by {
      forall i, j | 0 <= i < j < |opts| ensures opts[i].value != opts[j].value {
        assert opts[i] in opts && opts[j] in opts;
      }
    }
    opts
  }

  /**
   * `[{"label": names[x], "value": x} for x in df[col].unique()]`:
   * every code of the column exactly once, in order of first appearance.
   */
  function OptionsInTableOrder(codes: seq<string>, names: map<string, string>): (opts: seq<DropdownOption>)
    requires forall c :: c in codes ==> c in names
    ensures forall o :: o in opts <==> o.value in codes && o.text == names[o.value]
    ensures forall i, j :: 0 <= i < j < |opts| ==> opts[i].value != opts[j].value
    ensures forall i, j :: 0 <= i < j < |opts| ==>
      opts[i].value in codes && opts[j].value in codes &&
      FirstIndex(codes, opts[i].value) < FirstIndex(codes, opts[j].value)
  {
    var u := Unique(codes);
    UniqueFirstOccurrenceOrder(codes);
    var opts := seq(|u|, i requires 0 <= i < |u| => DropdownOption(names[u[i]], u[i]));
    assert forall c :: c in u ==> DropdownOption(names[c], c) in opts by {
      forall c | c in u ensures DropdownOption(names[c], c) in opts {
        var i :| 0 <= i < |u| && u[i] == c;
        assert opts[i] == DropdownOption(names[c], c);
      }
    }
    opts
  }
}
