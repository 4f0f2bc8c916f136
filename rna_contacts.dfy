/** `read_alifold`: the base pair contact probabilities RNAalifold writes to
    `alifold.out`, collected per alignment column and sorted by probability. */
module RnaContacts {
  import opened Wrappers
  import opened Text
  import opened OrderedMaps
  import opened Streams
  import RnaPatterns

  /** One contact row: the two paired columns (1-based) and the probability, in percent. */
  datatype Contact = Contact(i: int, j: int, p: real)

  /** The `defaultdict(list)` the reader returns: each column with the contacts that
      touch it, in the order the columns were first seen. */
  type Contacts = seq<(int, seq<Contact>)>

  datatype ContactError =
    | ContactsExpected(line: string)  // the assertion "Contact probabilities expected"
    | BadProbability(text: string)    // `float` raising ValueError
    | BadColumn(text: string)         // `int` raising ValueError

  /** What a line after the header means: the end of the contact rows, or a contact. */
  datatype Row = Stop | Entry(c: Contact)

  /** Python's `float` on a text: its value, or None where it raises ValueError. */
  type FloatParser = string -> Option<real>

  /** One round of the `for line in file` loop: a line of fewer than six columns ends the
      rows when it starts like a structure and is an error otherwise; a row gives the
      probability of its fourth column less its last character (the `%`) and the two
      columns in the first and second. The probability is converted first. */
  function ParseRow(parse: FloatParser, line: string): (r: Result<Row, ContactError>)
    ensures var cols := SplitWhitespace(line);
      && (r == Ok(Stop) <==> |cols| < 6 && line != [] && RnaPatterns.IsStructChar(line[0]))
      && (r.Err? && r.error.ContactsExpected? <==> |cols| < 6 && !(line != [] && RnaPatterns.IsStructChar(line[0])))
      && (r.Ok? && r.value.Entry? ==>
            (|cols| >= 6 && ParseInt(cols[0]) == Some(r.value.c.i) && ParseInt(cols[1]) == Some(r.value.c.j)
             && parse(cols[3][..|cols[3]| - 1]) == Some(r.value.c.p)))
    ensures var cols := SplitWhitespace(line);
      |cols| >= 6 ==> var text := cols[3][..|cols[3]| - 1];
        && (parse(text).None? ==> r == Err(BadProbability(text)))
        && (parse(text).Some? && ParseInt(cols[0]).None? ==> r == Err(BadColumn(cols[0])))
        && (parse(text).Some? && ParseInt(cols[0]).Some? && ParseInt(cols[1]).None? ==> r == Err(BadColumn(cols[1])))
        && (parse(text).Some? && ParseInt(cols[0]).Some? && ParseInt(cols[1]).Some? ==>
              r == Ok(Entry(Contact(ParseInt(cols[0]).value, ParseInt(cols[1]).value, parse(text).value))))
  {
    var cols := SplitWhitespace(line);
    if |cols| < 6 then
      if line != [] && RnaPatterns.IsStructChar(line[0]) then Ok(Stop) else Err(ContactsExpected(line))
    else
      var text := cols[3][..|cols[3]| - 1];
      match (parse(text), ParseInt(cols[0]), ParseInt(cols[1]))
      case (None, _, _) => Err(BadProbability(text))
      case (_, None, _) => Err(BadColumn(cols[0]))
      case (_, _, None) => Err(BadColumn(cols[1]))
      case (Some(p), Some(i), Some(j)) => Ok(Entry(Contact(i, j, p)))
  }

  /** The contacts of the rows up to the line that ends them, or the end of the file. */
  function Rows(parse: FloatParser, lines: seq<string>): Result<seq<Contact>, ContactError>
    decreases |lines|
  {
    if lines == [] then Ok([])
    else
      var row :- ParseRow(parse, lines[0]);
      match row
      case Stop => Ok([])
      case Entry(c) =>
        var rest :- Rows(parse, lines[1..]);
        Ok([c] + rest)
  }

  /** The list of a column, empty where the `defaultdict` has none yet. */
  function Values(m: Contacts, k: int): seq<Contact> {
    match Get(m, k)
    case None => []
    case Some(l) => l
  }

  /** `contacts[k].append(c)`. */
  function Append(m: Contacts, k: int, c: Contact): (r: Contacts)
    ensures MapKeys(r) == if k in MapKeys(m) then MapKeys(m) else MapKeys(m) + [k]
  {
    PutOrder(m, k, Values(m, k) + [c]);
    Put(m, k, Values(m, k) + [c])
  }

  /** A contact of positive probability goes into the list of its first column, then
      into that of its second; any other is dropped. */
  function Collect(m: Contacts, c: Contact): Contacts {
    if c.p > 0.0 then Append(Append(m, c.i, c), c.j, c) else m
  }

  /** The table the loop builds from the contacts read so far. */
  function Table(cs: seq<Contact>): Contacts
    decreases |cs|
  {
    if cs == [] then [] else Collect(Table(cs[..|cs| - 1]), cs[|cs| - 1])
  }

  /** The reference list of column `k`: every contact of positive probability with `k`
      as its first column, and again with `k` as its second, in the order read. */
  function Hits(c: Contact, k: int): seq<Contact> {
    if c.p > 0.0 then (if c.i == k then [c] else []) + (if c.j == k then [c] else []) else []
  }

  function Touching(cs: seq<Contact>, k: int): seq<Contact>
    decreases |cs|
  {
    if cs == [] then [] else Touching(cs[..|cs| - 1], k) + Hits(cs[|cs| - 1], k)
  }

  /** A column appended to is present, and holds its old list and the contact. */
  lemma {:induction false} AppendGet(m: Contacts, key: int, c: Contact, k: int)
    ensures Values(Append(m, key, c), k) == if k == key then Values(m, k) + [c] else Values(m, k)
    ensures k in MapKeys(Append(m, key, c)) <==> k in MapKeys(m) || k == key
  {
    PutGet(m, key, Values(m, key) + [c], k);
  }

  lemma {:induction false} CollectGet(m: Contacts, c: Contact, k: int)
    ensures Values(Collect(m, c), k) == Values(m, k) + Hits(c, k)
    ensures k in MapKeys(Collect(m, c)) <==> k in MapKeys(m) || Hits(c, k) != []
  {
    if c.p > 0.0 {
      var m1 := Append(m, c.i, c);
      AppendGet(m, c.i, c, k);
      AppendGet(m1, c.j, c, k);
      HitsOf(c, k, Values(m, k));
    } else {
      assert Values(m, k) + [] == Values(m, k);
    }
  }

  /** The reference list grows by the contact once per column of it that is `k`. */
  lemma {:induction false} HitsOf(c: Contact, k: int, l: seq<Contact>)
    requires c.p > 0.0
    ensures var l1 := if k == c.i then l + [c] else l;
      (if k == c.j then l1 + [c] else l1) == l + Hits(c, k)
    ensures Hits(c, k) != [] <==> k == c.i || k == c.j
  {
    if c.i == k && c.j == k {
      assert l + [c] + [c] == l + [c, c];
    } else if c.i != k && c.j != k {
      assert l + [] == l;
    }
  }

  /** Every column of the table holds exactly its reference list, and a column is in the
      table exactly when that list is not empty: the `defaultdict` creates no empty list. */
  lemma {:induction false} TableGet(cs: seq<Contact>, k: int)
    ensures Values(Table(cs), k) == Touching(cs, k)
    ensures k in MapKeys(Table(cs)) <==> Touching(cs, k) != []
    decreases |cs|
  {
    if cs != [] {
      var init, c := cs[..|cs| - 1], cs[|cs| - 1];
      TableGet(init, k);
      CollectGet(Table(init), c, k);
    }
  }

  /** No column appears twice. */
  lemma {:induction false} TableDistinct(cs: seq<Contact>)
    ensures DistinctKeys(Table(cs))
    decreases |cs|
  {
    if cs != [] {
      var m, c := Table(cs[..|cs| - 1]), cs[|cs| - 1];
      TableDistinct(cs[..|cs| - 1]);
      if c.p > 0.0 {
        PutDistinct(m, c.i, Values(m, c.i) + [c]);
        var m1 := Append(m, c.i, c);
        PutDistinct(m1, c.j, Values(m1, c.j) + [c]);
      }
    }
  }

  // ---------------------------------------------------------------------------------
  // `items.sort(key=itemgetter(2), reverse=True)`

  /** Highest probability first. */
  predicate Descending(s: seq<Contact>) {
    forall a, b :: 0 <= a < b < |s| ==> s[a].p >= s[b].p
  }

  /** The contact placed after every contact of at least its probability. */
  function Insert(c: Contact, s: seq<Contact>): (r: seq<Contact>)
    ensures multiset(r) == multiset(s) + multiset{c}
    ensures Descending(s) ==> Descending(r)
    ensures r != [] && (r[0] == c || (s != [] && r[0] == s[0]))
    decreases |s|
  {
    if s == [] || s[0].p < c.p then
      assert Descending(s) ==> Descending([c] + s) by {
        if Descending(s) { DescendingCons(c, s); }
      }
      [c] + s
    else
      var rest := Insert(c, s[1..]);
      assert s == [s[0]] + s[1..];
      assert multiset([s[0]] + rest) == multiset{s[0]} + multiset(rest);
      assert multiset(s) == multiset{s[0]} + multiset(s[1..]);
      assert ([s[0]] + rest)[0] == s[0];
      assert Descending(s) ==> Descending([s[0]] + rest) by {
        if Descending(s) {
          DescendingTail(s);
          DescendingCons(s[0], rest);
        }
      }
      [s[0]] + rest
  }

  lemma {:induction false} DescendingTail(s: seq<Contact>)
    requires s != [] && Descending(s)
    ensures Descending(s[1..]) && (|s| > 1 ==> s[0].p >= s[1].p)
  {
    var t := s[1..];
    forall a, b | 0 <= a < b < |t| ensures t[a].p >= t[b].p {
      assert t[a] == s[a + 1] && t[b] == s[b + 1];
    }
  }

  /** A contact of at least the probability of a descending list's head, put in front. */
  lemma {:induction false} DescendingCons(x: Contact, t: seq<Contact>)
    requires Descending(t) && (t == [] || x.p >= t[0].p)
    ensures Descending([x] + t)
  {
    var r := [x] + t;
    forall a, b | 0 <= a < b < |r| ensures r[a].p >= r[b].p {
      if a == 0 {
        assert r[b] == t[b - 1];
        if b > 1 { assert t[0].p >= t[b - 1].p; }
      } else {
        assert r[a] == t[a - 1] && r[b] == t[b - 1];
      }
    }
  }

  /** The sorted list: each contact in turn inserted into the sorted list of those before
      it. */
  function SortDesc(s: seq<Contact>): (r: seq<Contact>)
    ensures Descending(r) && multiset(r) == multiset(s)
    decreases |s|
  {
    if s == [] then []
    else
      var init := s[..|s| - 1];
      assert s == init + [s[|s| - 1]];
      Insert(s[|s| - 1], SortDesc(init))
  }

  /** The contacts of one probability, in order. */
  function WithP(s: seq<Contact>, v: real): seq<Contact>
    decreases |s|
  {
    if s == [] then [] else (if s[0].p == v then [s[0]] else []) + WithP(s[1..], v)
  }

  lemma {:induction false} WithPSnoc(s: seq<Contact>, c: Contact, v: real)
    ensures WithP(s + [c], v) == WithP(s, v) + (if c.p == v then [c] else [])
    decreases |s|
  {
    if s == [] {
      assert [c][1..] == [];
    } else {
      var h := if s[0].p == v then [s[0]] else [];
      var t := if c.p == v then [c] else [];
      assert (s + [c])[0] == s[0] && (s + [c])[1..] == s[1..] + [c];
      assert WithP(s + [c], v) == h + WithP(s[1..] + [c], v);
      WithPSnoc(s[1..], c, v);
      assert WithP(s, v) == h + WithP(s[1..], v);
      AppendAssoc(h, WithP(s[1..], v), t);
    }
  }

  /** Nothing in a descending list lies above a probability its head is below. */
  lemma {:induction false} WithPBelow(s: seq<Contact>, v: real)
    requires Descending(s) && (s == [] || s[0].p < v)
    ensures WithP(s, v) == []
    decreases |s|
  {
    if s != [] {
      WithPBelow(s[1..], v);
    }
  }

  lemma {:induction false} InsertWithP(c: Contact, s: seq<Contact>, v: real)
    requires Descending(s)
    ensures WithP(Insert(c, s), v) == WithP(s, v) + (if c.p == v then [c] else [])
    decreases |s|
  {
    if s == [] || s[0].p < c.p {
      var r := [c] + s;
      assert r[1..] == s;
      if c.p == v {
        WithPBelow(s, v);
        assert WithP(r, v) == [c] + [];
      } else {
        assert WithP(r, v) == [] + WithP(s, v);
      }
    } else {
      var rest := Insert(c, s[1..]);
      DescendingTail(s);
      InsertWithP(c, s[1..], v);
      var head := if s[0].p == v then [s[0]] else [];
      assert ([s[0]] + rest)[1..] == rest;
      assert WithP([s[0]] + rest, v) == head + WithP(rest, v);
      assert WithP(s, v) == head + WithP(s[1..], v);
      AppendAssoc(head, WithP(s[1..], v), if c.p == v then [c] else []);
    }
  }

  /** The sort is stable: the contacts of each probability keep the order they were
      read in. */
  lemma {:induction false} SortStable(s: seq<Contact>, v: real)
    ensures WithP(SortDesc(s), v) == WithP(s, v)
    decreases |s|
  {
    if s != [] {
      var init, c := s[..|s| - 1], s[|s| - 1];
      SortStable(init, v);
      InsertWithP(c, SortDesc(init), v);
      assert s == init + [c];
      WithPSnoc(init, c, v);
    }
  }

  /** The head of the sorted list is a contact of the list, of the highest probability:
      the value the converter shows for the column. */
  lemma {:induction false} SortedHead(s: seq<Contact>)
    requires s != []
    ensures SortDesc(s) != [] && SortDesc(s)[0] in s
    ensures forall a :: 0 <= a < |s| ==> s[a].p <= SortDesc(s)[0].p
  {
    var r := SortDesc(s);
    assert s[0] in multiset(r);
    assert r[0] in multiset(s);
    forall a | 0 <= a < |s| ensures s[a].p <= r[0].p {
      assert s[a] in multiset(r);
      var b :| 0 <= b < |r| && r[b] == s[a];
    }
  }

  /** The `for items in contacts.values()` loop: every list sorted. */
  function SortAll(m: Contacts): (r: Contacts)
    ensures |r| == |m|
    decreases |m|
  {
    if m == [] then [] else [(m[0].0, SortDesc(m[0].1))] + SortAll(m[1..])
  }

  /** Sorting keeps the columns and sorts each one's list. */
  lemma {:induction false} SortAllGet(m: Contacts, k: int)
    ensures MapKeys(SortAll(m)) == MapKeys(m)
    ensures Values(SortAll(m), k) == if k in MapKeys(m) then SortDesc(Values(m, k)) else []
    decreases |m|
  {
    if m != [] {
      SortAllGet(m[1..], k);
      assert MapKeys(SortAll(m)) == [m[0].0] + MapKeys(SortAll(m[1..]));
      assert MapKeys(m) == [m[0].0] + MapKeys(m[1..]);
    }
  }

  // ---------------------------------------------------------------------------------
  // `read_alifold`

  /** Where the two header lines end, from the cursor at `p`. */
  function HeaderEnd(lines: seq<string>, p: nat): (k: nat)
    requires p <= |lines|
    ensures p <= k <= |lines| && k - p == if |lines| - p < 2 then |lines| - p else 2
  {
    if p + 2 <= |lines| then p + 2 else |lines|
  }

  /** Sorting the lists keeps the columns distinct. */
  lemma {:induction false} SortAllDistinct(t: Contacts)
    requires DistinctKeys(t)
    ensures DistinctKeys(SortAll(t))
  {
    var ks := MapKeys(t);
    var sorted := SortAll(t);
    SortAllGet(t, 0);
    forall a, b | 0 <= a < b < |sorted| ensures sorted[a].0 != sorted[b].0 {
      assert MapKeys(sorted)[a] == ks[a] && MapKeys(sorted)[b] == ks[b];
    }
  }

  /** `read_alifold` on the lines from index `p` on: it fails exactly when a row after
      the header fails, and no column appears twice in what it returns. */
  function ReadAlifoldFrom(parse: FloatParser, lines: seq<string>, p: nat): (r: Result<Contacts, ContactError>)
    requires p <= |lines|
    ensures r.Ok? <==> Rows(parse, lines[HeaderEnd(lines, p)..]).Ok?
    ensures r.Err? ==> r.error == Rows(parse, lines[HeaderEnd(lines, p)..]).error
    ensures r.Ok? ==> DistinctKeys(r.value)
  {
    var cs :- Rows(parse, lines[HeaderEnd(lines, p)..]);
    TableDistinct(cs);
    SortAllDistinct(Table(cs));
    Ok(SortAll(Table(cs)))
  }

  /** What the reader returns: a column is present exactly when some contact of positive
      probability touches it, its list is those contacts from highest probability to
      lowest, contacts of equal probability in file order, and no column appears twice. */
  lemma {:induction false} ReadAlifoldContacts(parse: FloatParser, lines: seq<string>, p: nat, k: int)
    requires p <= |lines| && ReadAlifoldFrom(parse, lines, p).Ok?
    ensures var cs := Rows(parse, lines[HeaderEnd(lines, p)..]).value;
      var m := ReadAlifoldFrom(parse, lines, p).value;
      && DistinctKeys(m)
      && (k in MapKeys(m) <==> Touching(cs, k) != [])
      && Values(m, k) == SortDesc(Touching(cs, k))
      && Descending(Values(m, k))
      && multiset(Values(m, k)) == multiset(Touching(cs, k))
      && forall v: real :: WithP(Values(m, k), v) == WithP(Touching(cs, k), v)
  {
    var cs := Rows(parse, lines[HeaderEnd(lines, p)..]).value;
    var t := Table(cs);
    TableGet(cs, k);
    TableDistinct(cs);
    SortAllGet(t, k);
    var sorted := SortAll(t);
    forall v: real ensures WithP(Values(sorted, k), v) == WithP(Touching(cs, k), v) {
      SortStable(Touching(cs, k), v);
    }
  }

  /** The rows read so far put in front of what the rest of the file gives. */
  function Prefixed(seen: seq<Contact>, r: Result<seq<Contact>, ContactError>): Result<seq<Contact>, ContactError> {
    match r
    case Ok(t) => Ok(seen + t)
    case Err(e) => Err(e)
  }

  lemma {:induction false} TableSnoc(cs: seq<Contact>, c: Contact)
    ensures Table(cs + [c]) == Collect(Table(cs), c)
  {
    assert (cs + [c])[..|cs|] == cs;
  }

  lemma {:induction false} PrefixedNone(r: Result<seq<Contact>, ContactError>)
    ensures Prefixed([], r) == r
  {
    if r.Ok? {
      assert [] + r.value == r.value;
    }
  }

  /** `read_alifold`: the two header lines skipped, the contacts of the rows collected per
      column, then every column's list sorted. */
  method ReadAlifold(parse: FloatParser, file: LineReader) returns (r: Result<Contacts, ContactError>)
    requires file.Valid()
    modifies file
    ensures file.Valid()
    ensures r == ReadAlifoldFrom(parse, file.lines, old(file.pos))
  {
    ghost var p0 := file.pos;
    var header := file.ReadLine();
    header := file.ReadLine();
    assert file.pos == HeaderEnd(file.lines, p0);
    var contacts := CollectRows(parse, file);
    if contacts.Err? {
      return Err(contacts.error);
    }
    var sorted := SortLists(contacts.value);
    return Ok(sorted);
  }

  /** The `for line in file` loop: the table of the rows up to the end of them. */
  method CollectRows(parse: FloatParser, file: LineReader) returns (r: Result<Contacts, ContactError>)
    requires file.Valid()
    modifies file
    ensures file.Valid()
    ensures var cs := Rows(parse, file.lines[old(file.pos)..]);
      (cs.Err? ==> r == Err(cs.error)) && (cs.Ok? ==> r == Ok(Table(cs.value)))
  {
    ghost var goal := Rows(parse, file.lines[file.pos..]);
    ghost var rest := file.lines[file.pos..];
    ghost var seen: seq<Contact> := [];
    var contacts: Contacts := [];
    var line := file.Next();
    PrefixedNone(goal);
    while line.Some?
      invariant file.Valid()
      invariant line.Some? ==> rest != [] && line.value == rest[0] && file.lines[file.pos..] == rest[1..]
      invariant line.None? ==> rest == []
      invariant Prefixed(seen, Rows(parse, rest)) == goal
      invariant contacts == Table(seen)
      decreases |rest|
    {
      var row := ParseRow(parse, line.value);
      if row.Err? {
        RowsError(parse, rest, seen);
        return Err(row.error);
      }
      if row.value.Stop? {
        RowsStop(parse, rest, seen);
        break;
      }
      var c := row.value.c;
      contacts := AddContact(contacts, seen, c);
      RowsEntry(parse, rest, seen, c);
      seen := seen + [c];
      rest := rest[1..];
      line := file.Next();
    }
    if line.None? {
      RowsEnd(parse, seen);
    }
    return Ok(contacts);
  }

  /** The loop body's `contacts[i].append(c)` and `contacts[j].append(c)` for a contact
      of positive probability. */
  method AddContact(contacts: Contacts, ghost seen: seq<Contact>, c: Contact) returns (r: Contacts)
    requires contacts == Table(seen)
    ensures r == Table(seen + [c])
  {
    TableSnoc(seen, c);
    r := contacts;
    if c.p > 0.0 {
      r := Append(r, c.i, c);
      r := Append(r, c.j, c);
    }
  }

  /** A contact row moves the contact from the rows still to read to those read. */
  lemma {:induction false} RowsEntry(parse: FloatParser, rest: seq<string>, seen: seq<Contact>, c: Contact)
    requires rest != [] && ParseRow(parse, rest[0]) == Ok(Entry(c))
    ensures Prefixed(seen + [c], Rows(parse, rest[1..])) == Prefixed(seen, Rows(parse, rest))
  {
    var r := Rows(parse, rest[1..]);
    if r.Ok? {
      assert seen + [c] + r.value == seen + ([c] + r.value);
    }
  }

  lemma {:induction false} RowsStop(parse: FloatParser, rest: seq<string>, seen: seq<Contact>)
    requires rest != [] && ParseRow(parse, rest[0]) == Ok(Stop)
    ensures Prefixed(seen, Rows(parse, rest)) == Ok(seen)
  {
    assert seen + [] == seen;
  }

  lemma {:induction false} RowsError(parse: FloatParser, rest: seq<string>, seen: seq<Contact>)
    requires rest != [] && ParseRow(parse, rest[0]).Err?
    ensures Prefixed(seen, Rows(parse, rest)) == Err(ParseRow(parse, rest[0]).error)
  {
  }

  lemma {:induction false} RowsEnd(parse: FloatParser, seen: seq<Contact>)
    ensures Prefixed(seen, Rows(parse, [])) == Ok(seen)
  {
    assert seen + [] == seen;
  }

  /** `for items in contacts.values(): items.sort(...)`, each list sorted in its place. */
  method SortLists(m: Contacts) returns (r: Contacts)
    ensures r == SortAll(m)
  {
    r := m;
    for k := 0 to |r|
      invariant |r| == |m|
      invariant forall a :: 0 <= a < k ==> r[a] == SortAll(m)[a]
      invariant forall a :: k <= a < |r| ==> r[a] == m[a]
    {
      SortAllAt(m, k);
      r := r[k := (r[k].0, SortDesc(r[k].1))];
    }
  }

  lemma {:induction false} SortAllAt(m: Contacts, a: nat)
    requires a < |m|
    ensures SortAll(m)[a] == (m[a].0, SortDesc(m[a].1))
    decreases a
  {
    if a > 0 {
      SortAllAt(m[1..], a - 1);
    }
  }

  // ---------------------------------------------------------------------------------
  // Rows as RNAalifold writes them

  /** A row of at least six columns, padded with any whitespace before, between and after
      them, whose first two are integers and whose fourth is a number and a `%`, reads as
      that contact. */
  lemma {:induction false} RowRoundTrip(parse: FloatParser, lead: string, cols: seq<string>, gaps: seq<string>, c: Contact)
    requires |cols| >= 6 && |gaps| == |cols|
    requires forall a :: 0 <= a < |cols| ==> cols[a] != "" && NoSpace(cols[a])
    requires AllSpace(lead) && forall a :: 0 <= a < |gaps| ==> gaps[a] != "" && AllSpace(gaps[a])
    requires ParseInt(cols[0]) == Some(c.i) && ParseInt(cols[1]) == Some(c.j)
    requires parse(cols[3][..|cols[3]| - 1]) == Some(c.p)
    ensures ParseRow(parse, lead + Spaced(cols, gaps)) == Ok(Entry(c))
  {
    SplitWhitespaceSpaced(lead, cols, gaps);
  }
}
