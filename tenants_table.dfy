/**
  The tenants table: each tenant's avatar initials, and the ten-per-page pagination with
  its previous / next buttons and the reset to page 1 when the number of tenants changes.
*/
module TenantsTable {
  import opened Text
  import opened Seqs
  import opened Paging
  import opened TenantsMappers

  const PageSize: nat := 10

  // ---------------------------------------------------------------------------
  // Initials
  // ---------------------------------------------------------------------------

  /** `s[0]` used as text: the character, or "undefined" past the end. */
  function FirstChar(s: string): string
  {
    if s == [] then "undefined" else [s[0]]
  }

  /** The words of `name.trim().split(" ")`. */
  function Pieces(name: string): seq<string>
  {
    Split(Trim(name), ' ')
  }

  /** `initials(name)` as written: one piece gives its first two characters, otherwise the first characters of the first two pieces. */
  function Initials(name: string): string
  {
    var p := Pieces(name);
    if |p| == 1 then ToUpper(p[0][..Min(2, |p[0]|)])
    else ToUpper(FirstChar(p[0]) + FirstChar(p[1]))
  }

  /** A trimmed name without a space is one word: its first two characters, upper-cased. */
  lemma InitialsOneWord(name: string)
    requires ' ' !in Trim(name)
    ensures Initials(name) == ToUpper(Trim(name)[..Min(2, |Trim(name)|)])
  {
    var t := Trim(name);
    assert IndexOf(t, ' ') == -1;
  }

  /** The first piece of a split starts with the text's first character when that is not the separator. */
  lemma SplitHead(b: string)
    requires b != [] && b[0] != ' '
    ensures Split(b, ' ')[0] != [] && Split(b, ' ')[0][0] == b[0]
  {
    var i := IndexOf(b, ' ');
    if i >= 0 {
      SplitAt(b, ' ');
    }
  }

  /** Two words separated by one space give the upper-cased first letters of both words. */
  lemma InitialsTwoWords(name: string, a: string, b: string)
    requires Trim(name) == a + " " + b
    requires a != [] && ' ' !in a && b != [] && b[0] != ' '
    ensures Initials(name) == [UpperChar(a[0]), UpperChar(b[0])]
  {
    SplitFirst(a, b, ' ');
    SplitHead(b);
    var p := Pieces(name);
    assert p[0] == a && p[1] == Split(b, ' ')[0];
    var two := FirstChar(p[0]) + FirstChar(p[1]);
    assert two == [a[0], b[0]];
    assert ToUpper(two) == [UpperChar(a[0]), UpperChar(b[0])];
  }

  /** Two words with two spaces between them split into three pieces, the middle one empty. */
  lemma SplitDoubleSpace(a: string, c: string)
    requires ' ' !in a && ' ' !in c
    ensures Split(a + "  " + c, ' ') == [a, "", c]
  {
    var t := [' '] + c;
    assert a + "  " + c == a + [' '] + t;
    SplitFirst(a, t, ' ');
    assert t == [] + [' '] + c;
    SplitFirst([], c, ' ');
    assert IndexOf(c, ' ') == -1;
  }

  /** Two words, each without spaces, with no whitespace at the ends of the name they make. */
  predicate TwoWords(a: string, c: string)
  {
    a != [] && c != [] && ' ' !in a && ' ' !in c && !IsJsWhitespace(a[0]) && !IsJsWhitespace(c[|c| - 1])
  }

  /** The pieces of a name written with two spaces between its words. */
  lemma PiecesDoubleSpace(a: string, c: string)
    requires TwoWords(a, c)
    ensures Pieces(a + "  " + c) == [a, "", c]
  {
    var s := a + "  " + c;
    assert s[0] == a[0] && s[|s| - 1] == c[|c| - 1];
    TrimOfTrimmed(s);
    SplitDoubleSpace(a, c);
  }

  lemma ToUpperCons(x: char, s: string)
    ensures ToUpper([x] + s) == [UpperChar(x)] + ToUpper(s)
  {
    assert ([x] + s)[1..] == s;
  }

  /** Two spaces between the words leave an empty second piece, whose first character is `undefined`. */
  lemma InitialsDoubleSpace(a: string, c: string)
    requires TwoWords(a, c)
    ensures Initials(a + "  " + c) == [UpperChar(a[0])] + ToUpper("undefined")
    ensures |Initials(a + "  " + c)| == 10
  {
    PiecesDoubleSpace(a, c);
    assert FirstChar(a) + FirstChar("") == [a[0]] + "undefined";
    ToUpperCons(a[0], "undefined");
  }

  lemma UpperLettersOne()
    ensures UpperChar('u') == 'U' && UpperChar('n') == 'N' && UpperChar('d') == 'D'
  {
  }

  lemma UpperLettersTwo()
    ensures UpperChar('e') == 'E' && UpperChar('f') == 'F' && UpperChar('i') == 'I'
  {
  }

  lemma UpperUndefined()
    ensures ToUpper("undefined") == "UNDEFINED"
  {
    UpperLettersOne();
    UpperLettersTwo();
    var s := "undefined";
    var u := ToUpper(s);
    assert u[0] == UpperChar(s[0]) == 'U';
    assert u[1] == 'N' && u[2] == 'D' && u[3] == 'E' && u[4] == 'F';
    assert u[5] == 'I' && u[6] == 'N' && u[7] == 'E' && u[8] == 'D';
  }

  predicate NonEmpty(s: string) { s != [] }

  /** The words of the name: the pieces of splitting on spaces, without the empty pieces runs of spaces leave. */
  function Words(name: string): seq<string>
  {
    Filter(Pieces(name), NonEmpty)
  }

  /** The initials as intended: one word gives its first two characters, two or more give the first letters of the first two words. */
  function InitialsCorrected(name: string): (r: string)
    ensures |r| <= 2
    ensures Words(name) == [] ==> r == ""
  {
    var w := Words(name);
    if |w| == 0 then ""
    else if |w| == 1 then ToUpper(w[0][..Min(2, |w[0]|)])
    else ToUpper([w[0][0], w[1][0]])
  }

  /** With no empty piece, the written and the intended initials agree. */
  lemma InitialsAgree(name: string)
    requires |Pieces(name)| > 1 ==> forall k :: 0 <= k < |Pieces(name)| ==> Pieces(name)[k] != []
    ensures Initials(name) == InitialsCorrected(name)
  {
    var p := Pieces(name);
    if |p| > 1 {
      FilterKeepsAll(p, NonEmpty);
      assert FirstChar(p[0]) + FirstChar(p[1]) == [p[0][0], p[1][0]];
    } else if p[0] != [] {
      FilterKeepsAll(p, NonEmpty);
    } else {
      assert Words(name) == [];
    }
  }

  /** The intended initials of a double-spaced name are those of its two words. */
  lemma InitialsCorrectedDoubleSpace(a: string, c: string)
    requires TwoWords(a, c)
    ensures InitialsCorrected(a + "  " + c) == [UpperChar(a[0]), UpperChar(c[0])]
  {
    WordsDoubleSpace(a, c);
    ToUpperCons(a[0], [c[0]]);
    ToUpperCons(c[0], []);
  }

  /** A double-spaced name has exactly its two words. */
  lemma WordsDoubleSpace(a: string, c: string)
    requires TwoWords(a, c)
    ensures Words(a + "  " + c) == [a, c]
  {
    PiecesDoubleSpace(a, c);
    DropEmptyMiddle(a, c);
  }

  lemma DropEmptyMiddle(a: string, c: string)
    requires a != [] && c != []
    ensures Filter([a, "", c], NonEmpty) == [a, c]
  {
    var p := [a, "", c];
    assert Filter([c], NonEmpty) == [c] by {
      assert [c][1..] == [];
    }
    assert p[1..] == ["", c] && ["", c][1..] == [c];
    assert Filter(["", c], NonEmpty) == [c];
    assert Filter(p, NonEmpty) == [a] + Filter(p[1..], NonEmpty);
  }

  lemma AnaPerezShape()
    ensures Initials("Ana  Perez") == [UpperChar('A')] + ToUpper("undefined")
  {
    assert "Ana  Perez" == "Ana" + "  " + "Perez";
    assert TwoWords("Ana", "Perez");
    InitialsDoubleSpace("Ana", "Perez");
  }

  lemma UpperAUndefined()
    ensures [UpperChar('A')] + ToUpper("undefined") == "AUNDEFINED"
  {
    UpperUndefined();
    assert UpperChar('A') == 'A';
    assert ['A'] + "UNDEFINED" == "AUNDEFINED";
  }

  /** "Ana  Perez" shows as "AUNDEFINED" as written. */
  lemma AnaPerezAsWritten()
    ensures Initials("Ana  Perez") == "AUNDEFINED"
  {
    AnaPerezShape();
    UpperAUndefined();
  }

  /** "Ana  Perez" shows as "AP" as intended. */
  lemma AnaPerezIntended()
    ensures InitialsCorrected("Ana  Perez") == "AP"
  {
    assert "Ana  Perez" == "Ana" + "  " + "Perez";
    assert TwoWords("Ana", "Perez");
    InitialsCorrectedDoubleSpace("Ana", "Perez");
    assert UpperChar('A') == 'A' && UpperChar('P') == 'P';
  }

  /** The avatar of a row, as the table renders it: the initials as written. */
  function Avatar(t: Tenant): string
  {
    Initials(t.nombreCompleto)
  }

  /** The avatar with the corrected initials, which differs from `Avatar` only on names with empty pieces. */
  function CorrectedAvatar(t: Tenant): string
  {
    InitialsCorrected(t.nombreCompleto)
  }

  // ---------------------------------------------------------------------------
  // Pagination
  // ---------------------------------------------------------------------------

  /** `Math.ceil(tenants.length / PAGE_SIZE)`. */
  function TotalPages(n: nat): (r: nat)
    ensures n > 0 ==> r >= 1 && (r - 1) * PageSize < n <= r * PageSize
  {
    CeilDiv(n, PageSize)
  }

  /** `Math.min(page, totalPages)`. */
  function CurrentPage(page: int, n: nat): int
  {
    Min(page, TotalPages(n))
  }

  /** `tenants.slice((currentPage - 1) * PAGE_SIZE, currentPage * PAGE_SIZE)`. */
  function ShownTenants(tenants: seq<Tenant>, page: int): seq<Tenant>
    requires page >= 1 && |tenants| > 0
  {
    PageSlice(tenants, PageSize, CurrentPage(page, |tenants|))
  }

  /** The table shows between 1 and 10 tenants, those from position `(currentPage - 1) * 10` on. */
  lemma ShownTenantsSlice(tenants: seq<Tenant>, page: int)
    requires page >= 1 && |tenants| > 0
    ensures var cp := CurrentPage(page, |tenants|);
      && 1 <= cp <= TotalPages(|tenants|)
      && 1 <= |ShownTenants(tenants, page)| <= PageSize
      && ShownTenants(tenants, page) == tenants[(cp - 1) * PageSize .. Min(cp * PageSize, |tenants|)]
  {
    PageNotEmpty(tenants, PageSize, CurrentPage(page, |tenants|));
  }

  /** The page state of the table, with the number of tenants it was last computed for. */
  class Pager {
    var page: int
    var count: nat

    /** The page stays within 1..totalPages whenever there are tenants. */
    predicate Valid()
      reads this
    {
      page >= 1 && (count > 0 ==> page <= TotalPages(count))
    }

    constructor (n: nat)
      ensures Valid() && page == 1 && count == n
    {
      page := 1;
      count := n;
    }

    /** The effect on `tenants.length`: a different count sends the table back to page 1. */
    method CountChanged(n: nat)
      requires Valid()
      modifies this
      ensures Valid() && count == n
      ensures n != old(count) ==> page == 1
      ensures n == old(count) ==> page == old(page)
    {
      if n != count {
        page := 1;
      }
      count := n;
    }

    /** "Anterior": `Math.max(1, p - 1)`. */
    method Previous()
      requires Valid()
      modifies this
      ensures Valid() && count == old(count)
      ensures page == Max(1, old(page) - 1)
    {
      page := Max(1, page - 1);
    }

    /** "Siguiente": `Math.min(totalPages, p + 1)`. */
    method Next()
      requires Valid() && count > 0
      modifies this
      ensures Valid() && count == old(count)
      ensures page == Min(TotalPages(count), old(page) + 1)
    {
      page := Min(TotalPages(count), page + 1);
    }
  }

  /** While the pager keeps its invariant the `Math.min` clamp never changes the page. */
  lemma ClampIsIdentity(page: int, n: nat)
    requires page >= 1 && n > 0 && page <= TotalPages(n)
    ensures CurrentPage(page, n) == page
  {
  }
}
