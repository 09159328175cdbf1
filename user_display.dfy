/** The presentation layer: a page of users and a format name become the lines
    written to standard output. The text on standard output is the elements of a
    `Lines` value in order, each followed by a newline. */
module UserDisplay {
  import opened Models
  import opened Fmt

  type Lines = seq<string>

  predicate StartsWith(s: string, prefix: string) {
    |prefix| <= |s| && s[..|prefix|] == prefix
  }

  // ---------------------------------------------------------------------------
  // truncateString

  /** A string that fits in `maxLen` characters is kept; a longer one is cut to
      `maxLen - 3` characters followed by "...". Go slices with `s[:maxLen-3]`,
      which panics when a longer string meets `maxLen < 3`; that is the requires. */
  function TruncateString(s: string, maxLen: int): (r: string)
    requires |s| <= maxLen || 3 <= maxLen
    ensures |s| <= maxLen ==> r == s
    ensures |s| > maxLen ==>
      |r| == maxLen && r[..maxLen - 3] == s[..maxLen - 3] && r[maxLen - 3..] == "..."
  {
    if |s| <= maxLen then s else s[..maxLen - 3] + "..."
  }

  /** The result is as long as the shorter of `s` and `maxLen`. */
  lemma TruncateLength(s: string, maxLen: int)
    requires 3 <= maxLen
    ensures |TruncateString(s, maxLen)| == if |s| < maxLen then |s| else maxLen
  {
  }

  /** Truncating twice to the same width is truncating once. */
  lemma TruncateIdempotent(s: string, maxLen: int)
    requires 3 <= maxLen
    ensures TruncateString(TruncateString(s, maxLen), maxLen) == TruncateString(s, maxLen)
  {
    TruncateLength(s, maxLen);
  }

  /** The three cases of the unit test. */
  lemma TruncateExamples()
    ensures TruncateString("short", 10) == "short"
    ensures TruncateString("this is a very long string", 10) == "this is..."
    ensures TruncateString("exactly10char", 13) == "exactly10char"
  {
    assert "this is a very long string"[..7] == "this is";
  }

  // ---------------------------------------------------------------------------
  // printSummary

  const SummaryIcon := "\U{1F4CA}"

  function SummaryLine(total: int, shown: int, skip: int): string {
    (SummaryIcon + " Found ")
      + (IntToDecimal(total) + (" users (showing " + (IntToDecimal(shown)
      + (", skipped " + (IntToDecimal(skip) + ")")))))
  }

  /** The format string starts and ends with a newline of its own, so the summary
      is a blank line, the summary line and another blank line. */
  function SummaryLines(resp: UsersResponse): Lines {
    ["", SummaryLine(resp.total, |resp.users|, resp.skip), ""]
  }

  /** If `x` and `x'` do not contain `c` and the text after each starts with `c`,
      a common concatenation splits the same way. */
  lemma SplitAtDelimiter(x: string, y: string, x': string, y': string, c: char)
    requires c !in x && c !in x'
    requires |y| > 0 && y[0] == c && |y'| > 0 && y'[0] == c
    requires x + y == x' + y'
    ensures x == x' && y == y'
  {
    assert x == (x + y)[..|x|];
    assert x' == (x' + y')[..|x'|];
    assert y == (x + y)[|x|..];
    assert y' == (x' + y')[|x'|..];
  }

  lemma DropPrefix(p: string, x: string, y: string)
    requires p + x == p + y
    ensures x == y
  {
    assert x == (p + x)[|p|..];
    assert y == (p + y)[|p|..];
  }

  lemma DecimalHasNo(i: int, c: char)
    requires c != '-' && !('0' <= c <= '9')
    ensures c !in IntToDecimal(i)
  {
  }

  /** The summary line determines the three numbers it reports, and is determined
      by them: two summaries are equal exactly when total, shown and skip agree. */
  lemma SummaryLineInjective(t: int, n: int, s: int, t': int, n': int, s': int)
    ensures SummaryLine(t, n, s) == SummaryLine(t', n', s') <==> t == t' && n == n' && s == s'
  {
    if SummaryLine(t, n, s) == SummaryLine(t', n', s') {
      var a, b, c := IntToDecimal(t), IntToDecimal(n), IntToDecimal(s);
      var a', b', c' := IntToDecimal(t'), IntToDecimal(n'), IntToDecimal(s');
      var tail := ", skipped " + (c + ")");
      var tail' := ", skipped " + (c' + ")");
      var mid := " users (showing " + (b + tail);
      var mid' := " users (showing " + (b' + tail');
      DropPrefix(SummaryIcon + " Found ", a + mid, a' + mid');
      DecimalHasNo(t, ' ');
      DecimalHasNo(t', ' ');
      SplitAtDelimiter(a, mid, a', mid', ' ');
      DropPrefix(" users (showing ", b + tail, b' + tail');
      DecimalHasNo(n, ',');
      DecimalHasNo(n', ',');
      SplitAtDelimiter(b, tail, b', tail', ',');
      DropPrefix(", skipped ", c + ")", c' + ")");
      DecimalHasNo(s, ')');
      DecimalHasNo(s', ')');
      SplitAtDelimiter(c, ")", c', ")", ')');
      IntToDecimalInjective(t, t');
      IntToDecimalInjective(n, n');
      IntToDecimalInjective(s, s');
    }
  }

  lemma SliceAcross(a: string, b: string, i: nat, j: nat)
    requires i <= |a| <= j <= |a| + |b|
    ensures (a + b)[i..j] == a[i..] + b[..j - |a|]
  {
  }

  /** The summary of the table unit test starts with "Found 1 users". */
  lemma SummaryExample()
    ensures SummaryLine(1, 1, 0)[2..15] == "Found 1 users"
  {
    var p := SummaryIcon + " Found ";
    var tail := " users (showing " + (IntToDecimal(1) + (", skipped " + (IntToDecimal(0) + ")")));
    assert SummaryLine(1, 1, 0) == p + ("1" + tail) by {
      assert IntToDecimal(1) == "1";
    }
    SliceAcross(p, "1" + tail, 2, 15);
    assert p[2..] == "Found ";
    SliceAcross("1", tail, 0, 7);
    assert tail[..6] == " users";
  }

  // ---------------------------------------------------------------------------
  // One line per user, in input order (displaySimple and the rows of displayTable)

  function PerUser(users: seq<User>, line: User -> string): Lines {
    if users == [] then [] else [line(users[0])] + PerUser(users[1..], line)
  }

  lemma {:induction false} PerUserAt(users: seq<User>, line: User -> string)
    ensures |PerUser(users, line)| == |users|
    ensures forall i :: 0 <= i < |users| ==> PerUser(users, line)[i] == line(users[i])
  {
    if users != [] {
      PerUserAt(users[1..], line);
    }
  }

  lemma {:induction false} PerUserAppend(users: seq<User>, u: User, line: User -> string)
    ensures PerUser(users + [u], line) == PerUser(users, line) + [line(u)]
  {
    if users == [] {
      assert users + [u] == [u];
    } else {
      assert (users + [u])[1..] == users[1..] + [u];
      PerUserAppend(users[1..], u, line);
    }
  }

  /** The loop `for _, user := range users` that prints one line per user, after
      the lines in `head`. */
  method EmitPerUser(head: Lines, users: seq<User>, line: User -> string) returns (lines: Lines)
    ensures lines == head + PerUser(users, line)
  {
    lines := head;
    for i := 0 to |users|
      invariant lines == head + PerUser(users[..i], line)
    {
      assert users[..i + 1] == users[..i] + [users[i]];
      PerUserAppend(users[..i], users[i], line);
      lines := lines + [line(users[i])];
    }
    assert users[..|users|] == users;
  }

  // ---------------------------------------------------------------------------
  // displaySimple

  function SimpleLine(u: User): string {
    IntToDecimal(u.id) + ": " + u.firstName + " " + u.lastName + " (" + u.email + ")"
  }

  function SimpleLines(users: seq<User>): Lines {
    PerUser(users, SimpleLine)
  }

  method DisplaySimple(users: seq<User>) returns (lines: Lines)
    ensures lines == SimpleLines(users)
    ensures |lines| == |users|
    ensures forall i :: 0 <= i < |users| ==> lines[i] == SimpleLine(users[i])
  {
    lines := EmitPerUser([], users, SimpleLine);
    SimpleLinesAt(users);
  }

  /** One line per user, in input order. */
  lemma SimpleLinesAt(users: seq<User>)
    ensures |SimpleLines(users)| == |users|
    ensures forall i :: 0 <= i < |users| ==> SimpleLines(users)[i] == SimpleLine(users[i])
  {
    PerUserAt(users, SimpleLine);
  }

  // ---------------------------------------------------------------------------
  // displayTable

  /** Six columns separated by single spaces, as both table format strings
      "%-4s %-15s %-15s %-25s %-15s %-5s" and "%-4d %-15s %-15s %-25s %-15s %-5d"
      lay them out once each value has been padded to its width. */
  function Join6(c0: string, c1: string, c2: string, c3: string, c4: string, c5: string): string {
    c0 + (" " + (c1 + (" " + (c2 + (" " + (c3 + (" " + (c4 + (" " + c5)))))))))
  }

  lemma Peel(c: string, rest: string)
    ensures var line := c + (" " + rest);
      |line| == |c| + 1 + |rest| && line[..|c|] == c && line[|c|] == ' ' && line[|c| + 1..] == rest
  {
    var line := c + (" " + rest);
    assert line[..|c|] == c;
    assert line[|c| + 1..] == rest;
  }

  lemma SliceOfTail(line: string, o: nat, w: nat)
    requires o + w <= |line|
    ensures line[o..][..w] == line[o..o + w]
  {
  }

  lemma TailOfTail(line: string, o: nat, o': nat)
    requires o + o' <= |line|
    ensures line[o..][o'..] == line[o + o'..]
  {
  }

  /** With cells of widths 4, 15, 15, 25 and 15 the columns start at offsets 0, 5,
      21, 37, 63 and 79, the first five each followed by a space. */
  lemma Join6Layout(c0: string, c1: string, c2: string, c3: string, c4: string, c5: string)
    requires |c0| == 4 && |c1| == 15 && |c2| == 15 && |c3| == 25 && |c4| == 15
    ensures var line := Join6(c0, c1, c2, c3, c4, c5);
      && |line| == 79 + |c5|
      && line[..4] == c0 && line[4] == ' '
      && line[5..20] == c1 && line[20] == ' '
      && line[21..36] == c2 && line[36] == ' '
      && line[37..62] == c3 && line[62] == ' '
      && line[63..78] == c4 && line[78] == ' '
      && line[79..] == c5
  {
    var t4 := c4 + (" " + c5);
    var t3 := c3 + (" " + t4);
    var t2 := c2 + (" " + t3);
    var t1 := c1 + (" " + t2);
    var line := c0 + (" " + t1);
    Peel(c0, t1);
    Peel(c1, t2);
    Peel(c2, t3);
    Peel(c3, t4);
    Peel(c4, c5);
    TailOfTail(line, 5, 16);
    TailOfTail(line, 21, 16);
    TailOfTail(line, 37, 26);
    TailOfTail(line, 63, 16);
    SliceOfTail(line, 5, 15);
    SliceOfTail(line, 21, 15);
    SliceOfTail(line, 37, 25);
    SliceOfTail(line, 63, 15);
  }

  const TableHeader := Join6(PadRight("ID", 4), PadRight("First Name", 15), PadRight("Last Name", 15),
                             PadRight("Email", 25), PadRight("Phone", 15), PadRight("Age", 5))

  /** The rule under the header: 84 dashes. */
  const TableRule := "------------------------------------------------------------------------------------"

  /** A row prints id and age with "%-4d" and "%-5d" and the four text fields
      truncated to one character less than their column. */
  function TableRow(u: User): string {
    Join6(PadRight(IntToDecimal(u.id), 4),
          PadRight(TruncateString(u.firstName, 14), 15), PadRight(TruncateString(u.lastName, 14), 15),
          PadRight(TruncateString(u.email, 24), 25), PadRight(TruncateString(u.phone, 14), 15),
          PadRight(IntToDecimal(u.age), 5))
  }

  function TableLines(users: seq<User>): Lines {
    [TableHeader, TableRule] + PerUser(users, TableRow)
  }

  method DisplayTable(users: seq<User>) returns (lines: Lines)
    ensures lines == TableLines(users)
    ensures |lines| == |users| + 2 && lines[0] == TableHeader && lines[1] == TableRule
    ensures forall i :: 0 <= i < |users| ==> lines[i + 2] == TableRow(users[i])
  {
    lines := EmitPerUser([TableHeader, TableRule], users, TableRow);
    TableLinesAt(users);
  }

  /** The header, the rule, then one row per user in input order. */
  lemma TableLinesAt(users: seq<User>)
    ensures var lines := TableLines(users);
      && |lines| == |users| + 2 && lines[0] == TableHeader && lines[1] == TableRule
      && forall i :: 0 <= i < |users| ==> lines[i + 2] == TableRow(users[i])
  {
    PerUserAt(users, TableRow);
  }

  /** The header is as wide as the rule, 84 characters. */
  lemma TableHeaderWidth()
    ensures |TableHeader| == |TableRule| == 84
  {
    Join6Layout(PadRight("ID", 4), PadRight("First Name", 15), PadRight("Last Name", 15),
                PadRight("Email", 25), PadRight("Phone", 15), PadRight("Age", 5));
  }

  /** A text column truncated to `maxLen` and padded to `maxLen + 1` is exactly
      `maxLen + 1` wide, shows the value (or its cut form) first and ends in a space. */
  lemma TruncatedCell(s: string, maxLen: int)
    requires 3 <= maxLen
    ensures var cell := PadRight(TruncateString(s, maxLen), maxLen + 1);
      && |cell| == maxLen + 1 && cell[maxLen] == ' '
      && (|s| <= maxLen ==> cell[..|s|] == s)
      && (|s| > maxLen ==> cell[..maxLen] == s[..maxLen - 3] + "...")
  {
    TruncateLength(s, maxLen);
  }

  /** In every row first name, last name and phone take exactly 15 characters and
      the email exactly 25. When the id prints in at most four characters they sit
      at the offsets of their headers, and when the age also prints in at most five
      the row is exactly as wide as the header. */
  lemma TableRowLayout(u: User)
    ensures |PadRight(TruncateString(u.firstName, 14), 15)| == 15
    ensures |PadRight(TruncateString(u.lastName, 14), 15)| == 15
    ensures |PadRight(TruncateString(u.email, 24), 25)| == 25
    ensures |PadRight(TruncateString(u.phone, 14), 15)| == 15
    ensures var row := TableRow(u);
      |IntToDecimal(u.id)| <= 4 ==>
        && row[5..20] == PadRight(TruncateString(u.firstName, 14), 15)
        && row[21..36] == PadRight(TruncateString(u.lastName, 14), 15)
        && row[37..62] == PadRight(TruncateString(u.email, 24), 25)
        && row[63..78] == PadRight(TruncateString(u.phone, 14), 15)
        && (|IntToDecimal(u.age)| <= 5 ==> |row| == |TableHeader|)
  {
    TruncatedCell(u.firstName, 14);
    TruncatedCell(u.lastName, 14);
    TruncatedCell(u.email, 24);
    TruncatedCell(u.phone, 14);
    if |IntToDecimal(u.id)| <= 4 {
      Join6Layout(PadRight(IntToDecimal(u.id), 4),
        PadRight(TruncateString(u.firstName, 14), 15), PadRight(TruncateString(u.lastName, 14), 15),
        PadRight(TruncateString(u.email, 24), 25), PadRight(TruncateString(u.phone, 14), 15),
        PadRight(IntToDecimal(u.age), 5));
      TableHeaderWidth();
    }
  }

  /** A field that fits its truncation width is shown whole at the start of its column. */
  lemma ShownInColumn(row: string, o: nat, s: string, maxLen: int)
    requires 3 <= maxLen
    requires o + maxLen + 1 <= |row| && row[o..o + maxLen + 1] == PadRight(TruncateString(s, maxLen), maxLen + 1)
    ensures |s| <= maxLen ==> row[o..o + |s|] == s
  {
    if |s| <= maxLen {
      assert row[o..o + |s|] == row[o..o + maxLen + 1][..|s|];
    }
  }

  /** When the id prints in at most four characters, a first name of at most 14
      characters is shown whole at offset 5. */
  lemma FirstNameShown(u: User)
    requires |IntToDecimal(u.id)| <= 4
    ensures |u.firstName| <= 14 ==> TableRow(u)[5..5 + |u.firstName|] == u.firstName
  {
    TableRowLayout(u);
    ShownInColumn(TableRow(u), 5, u.firstName, 14);
  }

  /** Likewise a last name of at most 14 characters, at offset 21. */
  lemma LastNameShown(u: User)
    requires |IntToDecimal(u.id)| <= 4
    ensures |u.lastName| <= 14 ==> TableRow(u)[21..21 + |u.lastName|] == u.lastName
  {
    TableRowLayout(u);
    ShownInColumn(TableRow(u), 21, u.lastName, 14);
  }

  /** Likewise an email of at most 24 characters, at offset 37. */
  lemma EmailShown(u: User)
    requires |IntToDecimal(u.id)| <= 4
    ensures |u.email| <= 24 ==> TableRow(u)[37..37 + |u.email|] == u.email
  {
    TableRowLayout(u);
    ShownInColumn(TableRow(u), 37, u.email, 24);
  }

  /** Likewise a phone of at most 14 characters, at offset 63. */
  lemma PhoneShown(u: User)
    requires |IntToDecimal(u.id)| <= 4
    ensures |u.phone| <= 14 ==> TableRow(u)[63..63 + |u.phone|] == u.phone
  {
    TableRowLayout(u);
    ShownInColumn(TableRow(u), 63, u.phone, 14);
  }

  /** When the id prints in at most four characters, every text field that fits
      its column is shown whole at the start of that column. */
  lemma TableRowShowsFittingFields(u: User)
    requires |IntToDecimal(u.id)| <= 4
    ensures var row := TableRow(u);
      && (|u.firstName| <= 14 ==> row[5..5 + |u.firstName|] == u.firstName)
      && (|u.lastName| <= 14 ==> row[21..21 + |u.lastName|] == u.lastName)
      && (|u.email| <= 24 ==> row[37..37 + |u.email|] == u.email)
      && (|u.phone| <= 14 ==> row[63..63 + |u.phone|] == u.phone)
  {
    FirstNameShown(u);
    LastNameShown(u);
    EmailShown(u);
    PhoneShown(u);
  }

  // ---------------------------------------------------------------------------
  // displayDefault

  const UserIcon := "\U{1F464}"

  /** An indented "key: value" line of a user block. */
  function Detail(key: string, value: string): string {
    "   " + key + ": " + value
  }

  predicate IsDetail(line: string, key: string) {
    StartsWith(line, "   " + key + ": ")
  }

  lemma DetailLabel(key: string, value: string)
    requires |key| > 0
    ensures |Detail(key, value)| > 3 && Detail(key, value)[3] == key[0]
  {
    assert Detail(key, value) == "   " + (key + ": " + value);
  }

  /** The block for one user: six lines, then company and title only when the
      company has a name. */
  function UserBlock(u: User): Lines {
    [ UserIcon + " User #" + IntToDecimal(u.id),
      Detail("Name", u.firstName + " " + u.lastName),
      Detail("Email", u.email),
      Detail("Phone", u.phone),
      Detail("Username", u.username),
      Detail("Age", IntToDecimal(u.age) + ", Gender: " + u.gender) ]
    + if u.company.name != "" then
        [ Detail("Company", u.company.name + " (" + u.company.department + ")"),
          Detail("Title", u.company.title) ]
      else []
  }

  function BlockSize(u: User): nat {
    if u.company.name != "" then 8 else 6
  }

  /** A block has six lines plus two when the company has a name; the company and
      title lines appear exactly when it does; no line of a block is blank. */
  lemma UserBlockShape(u: User)
    ensures |UserBlock(u)| == BlockSize(u)
    ensures "" !in UserBlock(u)
    ensures (exists k :: 0 <= k < |UserBlock(u)| && IsDetail(UserBlock(u)[k], "Company"))
      <==> u.company.name != ""
    ensures (exists k :: 0 <= k < |UserBlock(u)| && IsDetail(UserBlock(u)[k], "Title"))
      <==> u.company.name != ""
  {
    var b := UserBlock(u);
    var company := Detail("Company", u.company.name + " (" + u.company.department + ")");
    var title := Detail("Title", u.company.title);
    assert IsDetail(company, "Company");
    assert IsDetail(title, "Title");
    DetailLabel("Name", u.firstName + " " + u.lastName);
    DetailLabel("Email", u.email);
    DetailLabel("Phone", u.phone);
    DetailLabel("Username", u.username);
    DetailLabel("Age", IntToDecimal(u.age) + ", Gender: " + u.gender);
    forall k | 0 <= k < 6
      ensures b[k] != "" && !IsDetail(b[k], "Company") && !IsDetail(b[k], "Title")
    {
      if k == 0 {
        assert b[0][0] != ' ';
      } else {
        assert b[k][3] !in {'C', 'T'};
      }
    }
    if u.company.name != "" {
      assert b[6] == company && b[7] == title;
    }
  }

  /** Blocks in input order, with a blank line after each block but the last. */
  function Blocks(users: seq<User>, block: User -> Lines): Lines {
    if users == [] then []
    else block(users[0]) + (if |users| > 1 then [""] + Blocks(users[1..], block) else [])
  }

  function TotalSize(users: seq<User>, size: User -> nat): nat {
    if users == [] then 0 else size(users[0]) + TotalSize(users[1..], size)
  }

  lemma {:induction false} BlocksAppend(users: seq<User>, u: User, block: User -> Lines)
    ensures Blocks(users + [u], block)
      == if users == [] then block(u) else Blocks(users, block) + [""] + block(u)
  {
    if users == [] {
      assert users + [u] == [u];
    } else {
      assert (users + [u])[0] == users[0];
      assert (users + [u])[1..] == users[1..] + [u];
      BlocksAppend(users[1..], u, block);
    }
  }

  lemma {:induction false} BlocksCount(users: seq<User>, block: User -> Lines, size: User -> nat)
    requires forall i :: 0 <= i < |users| ==> |block(users[i])| == size(users[i])
    ensures |Blocks(users, block)| == TotalSize(users, size) + if users == [] then 0 else |users| - 1
  {
    if users != [] {
      BlocksCount(users[1..], block, size);
    }
  }

  lemma BlankCountAfterBlock(b: Lines, rest: Lines)
    requires "" !in b
    ensures multiset(b + ([""] + rest))[""] == multiset(rest)[""] + 1
    ensures multiset(b)[""] == 0
  {
    assert multiset(b + ([""] + rest)) == multiset(b) + multiset([""]) + multiset(rest);
  }

  lemma {:induction false} BlocksBlankCount(users: seq<User>, block: User -> Lines)
    requires forall i :: 0 <= i < |users| ==> "" !in block(users[i])
    ensures multiset(Blocks(users, block))[""] == if users == [] then 0 else |users| - 1
  {
    if users != [] {
      BlankCountAfterBlock(block(users[0]), if |users| > 1 then Blocks(users[1..], block) else []);
      if |users| > 1 {
        BlocksBlankCount(users[1..], block);
      }
    }
  }

  lemma {:induction false} BlocksEnds(users: seq<User>, block: User -> Lines)
    requires users != []
    requires forall i :: 0 <= i < |users| ==> |block(users[i])| > 0
    ensures var out, first, last := Blocks(users, block), block(users[0]), block(users[|users| - 1]);
      |out| > 0 && out[0] == first[0] && out[|out| - 1] == last[|last| - 1]
  {
    if |users| > 1 {
      BlocksEnds(users[1..], block);
      assert users[1..][|users[1..]| - 1] == users[|users| - 1];
    }
  }

  /** What the block loop has written after its first `i` iterations: the blocks of
      `users[..i]` and, when another user follows, the blank line after the last. */
  function BlocksPrefix(users: seq<User>, block: User -> Lines, i: nat): Lines
    requires i <= |users|
  {
    Blocks(users[..i], block) + if 0 < i < |users| then [""] else []
  }

  lemma BlocksPrefixStep(users: seq<User>, block: User -> Lines, i: nat)
    requires i < |users|
    ensures BlocksPrefix(users, block, i + 1)
      == BlocksPrefix(users, block, i) + block(users[i]) + if i < |users| - 1 then [""] else []
  {
    assert users[..i + 1] == users[..i] + [users[i]];
    BlocksAppend(users[..i], users[i], block);
  }

  /** The loop `for i, user := range users` that prints a block per user and a blank
      line while `i < len(users)-1`. */
  method EmitBlocks(users: seq<User>, block: User -> Lines) returns (lines: Lines)
    ensures lines == Blocks(users, block)
  {
    lines := [];
    for i := 0 to |users|
      invariant lines == BlocksPrefix(users, block, i)
    {
      BlocksPrefixStep(users, block, i);
      lines := lines + block(users[i]);
      if i < |users| - 1 {
        lines := lines + [""];
      }
    }
    assert users[..|users|] == users;
  }

  function DefaultLines(users: seq<User>): Lines {
    Blocks(users, UserBlock)
  }

  /** Line count: six or eight lines per user and one blank line between neighbours. */
  lemma DefaultLinesCount(users: seq<User>)
    ensures |DefaultLines(users)| == TotalSize(users, BlockSize) + if users == [] then 0 else |users| - 1
  {
    forall i | 0 <= i < |users| ensures |UserBlock(users[i])| == BlockSize(users[i]) {
      UserBlockShape(users[i]);
    }
    BlocksCount(users, UserBlock, BlockSize);
  }

  /** Exactly `n - 1` blank lines for `n >= 1` users and none for none; the output
      starts with the first user's header and ends with the last line of the last
      user's block, which is not blank. */
  lemma DefaultLinesSeparators(users: seq<User>)
    ensures multiset(DefaultLines(users))[""] == if users == [] then 0 else |users| - 1
    ensures users != [] ==> (var out, last := DefaultLines(users), UserBlock(users[|users| - 1]);
      && |out| > 0 && |last| > 0
      && out[0] == UserIcon + " User #" + IntToDecimal(users[0].id)
      && out[|out| - 1] == last[|last| - 1] && out[|out| - 1] != "")
  {
    forall i | 0 <= i < |users| ensures "" !in UserBlock(users[i]) && |UserBlock(users[i])| > 0 {
      UserBlockShape(users[i]);
    }
    BlocksBlankCount(users, UserBlock);
    if users != [] {
      BlocksEnds(users, UserBlock);
    }
  }

  method DisplayDefault(users: seq<User>) returns (lines: Lines)
    ensures lines == DefaultLines(users)
  {
    lines := EmitBlocks(users, UserBlock);
  }

  // ---------------------------------------------------------------------------
  // Display

  /** The whole output for a page and a format name. `marshalled` stands for the text
      json.MarshalIndent produces for the users, which this model does not compute. */
  function Render(resp: UsersResponse, format: string, marshalled: string): Lines {
    SummaryLines(resp)
      + if format == "json" then [marshalled]
        else if format == "table" then TableLines(resp.users)
        else if format == "simple" then SimpleLines(resp.users)
        else DefaultLines(resp.users)
  }

  method Display(resp: UsersResponse, format: string, marshalled: string) returns (lines: Lines)
    ensures lines == Render(resp, format, marshalled)
  {
    lines := SummaryLines(resp);
    var body: Lines;
    if format == "json" {
      body := [marshalled];
    } else if format == "table" {
      body := DisplayTable(resp.users);
    } else if format == "simple" {
      body := DisplaySimple(resp.users);
    } else {
      body := DisplayDefault(resp.users);
    }
    lines := lines + body;
  }

  /** Whatever the format, the output opens with the summary, which reports total,
      the number of users actually present and skip; the limit never shows. */
  lemma RenderStartsWithSummary(resp: UsersResponse, format: string, marshalled: string, limit: int)
    ensures var out := Render(resp, format, marshalled);
      |out| >= 3 && out[0] == "" && out[2] == ""
      && out[1] == SummaryLine(resp.total, |resp.users|, resp.skip)
    ensures Render(resp.(limit := limit), format, marshalled) == Render(resp, format, marshalled)
  {
  }

  /** A format other than "json", "table" and "simple" renders as "default". */
  lemma RenderFallsBackToDefault(resp: UsersResponse, format: string, marshalled: string)
    requires format != "json" && format != "table" && format != "simple"
    ensures Render(resp, format, marshalled) == Render(resp, "default", marshalled)
    ensures Render(resp, format, marshalled)[3..] == DefaultLines(resp.users)
  {
  }

  /** The user of the table unit test. */
  function John(): User {
    User(1, "John", "Doe", "john@example.com", "+1234567890", "", 30, "", Company("", "", ""))
  }

  /** The table unit test: the output holds "Found 1 users", the first name and the email. */
  lemma TableExample(marshalled: string)
    ensures var out := Render(UsersResponse([John()], 1, 0, 10), "table", marshalled);
      && |out| == 6
      && out[1][2..15] == "Found 1 users"
      && out[5][5..9] == "John"
      && out[5][37..53] == "john@example.com"
  {
    var resp := UsersResponse([John()], 1, 0, 10);
    TableLinesAt([John()]);
    RenderStartsWithSummary(resp, "table", marshalled, 10);
    SummaryExample();
    assert IntToDecimal(1) == "1";
    TableRowShowsFittingFields(John());
  }
}
