/** Rewriting `?` placeholders to the numbered ones of PostgreSQL, outside quoted text. */
module BindQuery {
  import opened Common

  const QUOTE: char := '\''

  predicate IsDigit(c: char) {
    '0' <= c <= '9'
  }

  function Digit(n: nat): char
    requires n < 10
  {
    '0' + n as char
  }

  /** Decimal notation. */
  function Decimal(n: nat): (r: string)
    ensures r != [] && forall k :: 0 <= k < |r| ==> IsDigit(r[k])
  {
    if n < 10 then [Digit(n)] else Decimal(n / 10) + [Digit(n % 10)]
  }

  function Value(digits: string): nat
    requires forall k :: 0 <= k < |digits| ==> IsDigit(digits[k])
  {
    if digits == [] then 0
    else
      var last := digits[|digits| - 1];
      assert IsDigit(last);
      10 * Value(digits[..|digits| - 1]) + (last as int - '0' as int)
  }

  lemma {:induction false} ValueOfDecimal(n: nat)
    ensures Value(Decimal(n)) == n
  {
    if n >= 10 {
      ValueOfDecimal(n / 10);
      assert Decimal(n)[..|Decimal(n)| - 1] == Decimal(n / 10);
    } else {
      assert Decimal(n)[..0] == [];
    }
  }

  /** The meaning: one pass that only knows whether it is inside quotes, and flips that at every quote. */
  function Bound(query: string, quoted: bool, parameter: nat): string {
    if query == [] then []
    else if query[0] == QUOTE then [QUOTE] + Bound(query[1..], !quoted, parameter)
    else if query[0] == '?' && !quoted then ['$'] + Decimal(parameter) + Bound(query[1..], quoted, parameter + 1)
    else [query[0]] + Bound(query[1..], quoted, parameter)
  }

  /** What has been written, followed by the meaning of what is left, is the meaning of the whole query. */
  predicate Along(query: string, written: string, index: nat, quoted: bool, parameter: nat) {
    index <= |query| && written + Bound(query[index..], quoted, parameter) == Bound(query, false, 1)
  }

  lemma StepAlong(query: string, written: string, index: nat, quoted: bool, parameter: nat)
    requires Along(query, written, index, quoted, parameter) && index < |query|
    ensures if query[index] == QUOTE then Along(query, written + [QUOTE], index + 1, !quoted, parameter)
            else if query[index] == '?' && !quoted then
              Along(query, written + ['$'] + Decimal(parameter), index + 1, quoted, parameter + 1)
            else Along(query, written + [query[index]], index + 1, quoted, parameter)
  {
    assert query[index..][1..] == query[index + 1..];
    if query[index] == QUOTE {
      Regroup(written, [QUOTE], Bound(query[index + 1..], !quoted, parameter));
    } else if query[index] == '?' && !quoted {
      var later := Bound(query[index + 1..], quoted, parameter + 1);
      Regroup(written + ['$'], Decimal(parameter), later);
      Regroup(written, ['$'], Decimal(parameter) + later);
      Regroup(['$'], Decimal(parameter), later);
    } else {
      Regroup(written, [query[index]], Bound(query[index + 1..], quoted, parameter));
    }
  }

  lemma Regroup(a: string, b: string, c: string)
    ensures (a + b) + c == a + (b + c)
  {
  }

  /** The loop of the source, which looks ahead for doubled quotes. The look-ahead changes nothing. */
  method BindPostgres(query: string) returns (result: string)
    ensures result == Bound(query, false, 1)
  {
    result := [];
    var parameter, inSingleQuote, index := 1, false, 0;
    assert query[0..] == query;
    while index < |query|
      invariant Along(query, result, index, inSingleQuote, parameter)
    {
      StepAlong(query, result, index, inSingleQuote, parameter);
      hide Along, Decimal;
      var character := query[index];
      if character == QUOTE {
        result := result + [character];
        if inSingleQuote && index + 1 < |query| && query[index + 1] == QUOTE {
          StepAlong(query, result, index + 1, false, parameter);
          result := result + [query[index + 1]];
          index := index + 2;
          continue;
        }
        inSingleQuote := !inSingleQuote;
        index := index + 1;
        continue;
      }
      if character == '?' && !inSingleQuote {
        result := result + ['$'] + Decimal(parameter);
        parameter := parameter + 1;
        index := index + 1;
        continue;
      }
      result := result + [character];
      index := index + 1;
    }
  }

  datatype Dialect = Sqlite | Postgres

  method Bind(dialect: Dialect, query: string) returns (result: string)
    ensures result == if dialect.Postgres? then Bound(query, false, 1) else query
  {
    if dialect != Postgres {
      return query;
    }
    result := BindPostgres(query);
  }

  // Reading it back.

  /** The digits at the front. */
  function DigitsOf(s: string): (r: string)
    ensures forall k :: 0 <= k < |r| ==> IsDigit(r[k])
    ensures |r| <= |s| && s[..|r|] == r
    ensures |r| < |s| ==> !IsDigit(s[|r|])
  {
    if s != [] && IsDigit(s[0]) then [s[0]] + DigitsOf(s[1..]) else []
  }

  /** Every unquoted `$` with its number back to `?`. */
  function Unbound(s: string, quoted: bool): string
    decreases |s|
  {
    if s == [] then []
    else if s[0] == QUOTE then [QUOTE] + Unbound(s[1..], !quoted)
    else if s[0] == '$' && !quoted then ['?'] + Unbound(s[1 + |DigitsOf(s[1..])|..], quoted)
    else [s[0]] + Unbound(s[1..], quoted)
  }

  /** The numbers after unquoted `$`, from left to right. */
  function Numbers(s: string, quoted: bool): seq<nat>
    decreases |s|
  {
    if s == [] then []
    else if s[0] == QUOTE then Numbers(s[1..], !quoted)
    else if s[0] == '$' && !quoted then [Value(DigitsOf(s[1..]))] + Numbers(s[1 + |DigitsOf(s[1..])|..], quoted)
    else Numbers(s[1..], quoted)
  }

  function Placeholders(query: string, quoted: bool): nat {
    if query == [] then 0
    else if query[0] == QUOTE then Placeholders(query[1..], !quoted)
    else Placeholders(query[1..], quoted) + (if query[0] == '?' && !quoted then 1 else 0)
  }

  lemma BoundStep(query: string, quoted: bool, parameter: nat)
    requires query != []
    ensures query == [query[0]] + query[1..]
    ensures Bound(query, quoted, parameter) ==
            if query[0] == QUOTE then [QUOTE] + Bound(query[1..], !quoted, parameter)
            else if query[0] == '?' && !quoted then
              ['$'] + (Decimal(parameter) + Bound(query[1..], quoted, parameter + 1))
            else [query[0]] + Bound(query[1..], quoted, parameter)
  {
    if query[0] == '?' && !quoted {
      Regroup(['$'], Decimal(parameter), Bound(query[1..], quoted, parameter + 1));
    }
  }

  /** Whether one is inside quotes behind `s`. */
  predicate InQuotes(s: string, quoted: bool) {
    if s == [] then quoted else InQuotes(s[1..], quoted != (s[0] == QUOTE))
  }

  /** Text behind `front` is rewritten as if it stood alone, from the number and the quoting `front` leads to. */
  lemma {:induction false} BoundSplits(front: string, rest: string, quoted: bool, parameter: nat)
    ensures Bound(front + rest, quoted, parameter) ==
            Bound(front, quoted, parameter)
            + Bound(rest, InQuotes(front, quoted), parameter + Placeholders(front, quoted))
  {
    if front == [] {
      assert front + rest == rest;
    } else {
      var c, few, query := front[0], front[1..], front + rest;
      var within := quoted != (c == QUOTE);
      var number := if c == '?' && !quoted then parameter + 1 else parameter;
      assert query[0] == c && query[1..] == few + rest;
      BoundSplits(few, rest, within, number);
      BoundStep(query, quoted, parameter);
      BoundStep(front, quoted, parameter);
      PlaceholderCount(front, quoted);
      var head, tail :=
        Bound(few, within, number), Bound(rest, InQuotes(front, quoted), parameter + Placeholders(front, quoted));
      hide Bound, Placeholders, Decimal;
      Regroup(['$'], Decimal(parameter) + head, tail);
      Regroup(Decimal(parameter), head, tail);
      Regroup([c], head, tail);
    }
  }

  lemma PlaceholderCount(front: string, quoted: bool)
    requires front != []
    ensures Placeholders(front, quoted) == Placeholders(front[1..], quoted != (front[0] == QUOTE))
                                           + (if front[0] == '?' && !quoted then 1 else 0)
  {
  }

  /** Every query: the placeholder with `n` placeholders before it becomes number `parameter + n`, and every other
      character, quoted or not, stands in its place unchanged. */
  lemma PlaceholdersAreNumbered(query: string, k: nat, quoted: bool, parameter: nat)
    requires k < |query|
    ensures var before, within, n :=
              query[..k], InQuotes(query[..k], quoted), parameter + Placeholders(query[..k], quoted);
            Bound(query, quoted, parameter) ==
            Bound(before, quoted, parameter)
            + (if query[k] == '?' && !within then ['$'] + Decimal(n) + Bound(query[k + 1..], within, n + 1)
               else [query[k]] + Bound(query[k + 1..], within != (query[k] == QUOTE), n))
  {
    hide Bound, Decimal, Placeholders, InQuotes;
    var before, rest := query[..k], query[k..];
    assert query == before + rest && rest[1..] == query[k + 1..];
    BoundSplits(before, rest, quoted, parameter);
    var n := parameter + Placeholders(before, quoted);
    BoundStep(rest, InQuotes(before, quoted), n);
    Regroup(['$'], Decimal(n), Bound(query[k + 1..], false, n + 1));
  }

  /** No digit directly behind a placeholder at the front. */
  predicate PlaceholderEnds(query: string) {
    |query| > 1 ==> !IsDigit(query[1])
  }

  /** Outside quotes there is no `$` yet, and no digit directly behind a placeholder. */
  predicate Readable(query: string, quoted: bool) {
    query == [] ||
    if query[0] == QUOTE then Readable(query[1..], !quoted)
    else
      && (quoted || query[0] != '$')
      && (!quoted && query[0] == '?' ==> PlaceholderEnds(query))
      && Readable(query[1..], quoted)
  }

  lemma {:induction false} DigitsInFront(digits: string, rest: string)
    requires forall k :: 0 <= k < |digits| ==> IsDigit(digits[k])
    requires rest == [] || !IsDigit(rest[0])
    ensures DigitsOf(digits + rest) == digits
  {
    if digits == [] {
      assert digits + rest == rest;
    } else {
      DigitsInFront(digits[1..], rest);
      assert (digits + rest)[1..] == digits[1..] + rest;
    }
  }

  /** The first character of a bound query is that of the query, or `$`. */
  lemma BoundStart(query: string, quoted: bool, parameter: nat)
    requires query != []
    ensures Bound(query, quoted, parameter) != []
    ensures Bound(query, quoted, parameter)[0] == if query[0] == '?' && !quoted then '$' else query[0]
  {
    hide Bound, Decimal;
    BoundStep(query, quoted, parameter);
  }

  lemma AfterPlaceholder(query: string, parameter: nat)
    requires query != [] && query[0] == '?' && PlaceholderEnds(query)
    ensures var later := Bound(query[1..], false, parameter + 1);
            && Bound(query, false, parameter) == ['$'] + (Decimal(parameter) + later)
            && DigitsOf(Decimal(parameter) + later) == Decimal(parameter)
            && (Decimal(parameter) + later)[|Decimal(parameter)|..] == later
  {
    hide Bound, DigitsOf;
    BoundStep(query, false, parameter);
    var later := Bound(query[1..], false, parameter + 1);
    if |query| > 1 {
      BoundStart(query[1..], false, parameter + 1);
    } else {
      BoundOfNothing(parameter + 1);
    }
    DigitsInFront(Decimal(parameter), later);
  }

  lemma BoundOfNothing(parameter: nat)
    ensures Bound([], false, parameter) == []
  {
  }

  /** Reading back, one character or placeholder at a time. */
  lemma UnboundStep(c: char, rest: string, quoted: bool)
    ensures Unbound([c] + rest, quoted) ==
            if c == QUOTE then [QUOTE] + Unbound(rest, !quoted)
            else if c == '$' && !quoted then ['?'] + Unbound(rest[|DigitsOf(rest)|..], quoted)
            else [c] + Unbound(rest, quoted)
  {
    var s := [c] + rest;
    assert s[1..] == rest && s[1 + |DigitsOf(rest)|..] == rest[|DigitsOf(rest)|..];
  }

  /** What is read back behind digits that have been skipped does not begin with one. */
  lemma UnboundBehindDigits(s: string)
    ensures var back := Unbound(s[|DigitsOf(s)|..], false); back == [] || !IsDigit(back[0])
  {
    var rest := s[|DigitsOf(s)|..];
    if rest != [] {
      assert rest == [rest[0]] + rest[1..] && !IsDigit(rest[0]);
      hide DigitsOf, Unbound;
      UnboundStep(rest[0], rest[1..], false);
    }
  }

  lemma DigitBehindPlaceholderIsLost(query: string, parameter: nat)
    requires query != [] && query[0] == '?' && !PlaceholderEnds(query)
    ensures Unbound(Bound(query, false, parameter), false) != query
  {
    hide Bound, Unbound, DigitsOf;
    BoundStep(query, false, parameter);
    var rest := Decimal(parameter) + Bound(query[1..], false, parameter + 1);
    UnboundStep('$', rest, false);
    UnboundBehindDigits(rest);
    var back := Unbound(rest[|DigitsOf(rest)|..], false);
    assert (['?'] + back)[1..] == back;
    assert back == [] || back[0] != query[1];
  }

  /** Reading a bound query back gives the query exactly if it is readable: a `$` of its own, or a digit behind a
      placeholder, cannot be told apart afterwards. */
  lemma {:induction false} BindingIsReversible(query: string, quoted: bool, parameter: nat)
    ensures Unbound(Bound(query, quoted, parameter), quoted) == query <==> Readable(query, quoted)
  {
    if query != [] {
      hide Bound, Unbound, DigitsOf, Decimal, IsDigit;
      var c, rest := query[0], query[1..];
      BoundStep(query, quoted, parameter);
      if c == QUOTE {
        BindingIsReversible(rest, !quoted, parameter);
        UnboundStep(QUOTE, Bound(rest, !quoted, parameter), quoted);
        SameTail(c, Unbound(Bound(rest, !quoted, parameter), !quoted), rest);
      } else if c == '?' && !quoted {
        if PlaceholderEnds(query) {
          var later := Bound(rest, quoted, parameter + 1);
          BindingIsReversible(rest, quoted, parameter + 1);
          AfterPlaceholder(query, parameter);
          UnboundStep('$', Decimal(parameter) + later, quoted);
          SameTail(c, Unbound(later, quoted), rest);
        } else {
          DigitBehindPlaceholderIsLost(query, parameter);
        }
      } else {
        BindingIsReversible(rest, quoted, parameter);
        UnboundStep(c, Bound(rest, quoted, parameter), quoted);
        if c == '$' && !quoted {
          assert query[0] != '?';
        } else {
          SameTail(c, Unbound(Bound(rest, quoted, parameter), quoted), rest);
        }
      }
    } else {
      EmptyIsReversible(quoted, parameter);
    }
  }

  lemma EmptyIsReversible(quoted: bool, parameter: nat)
    ensures Unbound(Bound([], quoted, parameter), quoted) == [] && Readable([], quoted)
  {
  }

  lemma SameTail(c: char, a: string, b: string)
    ensures [c] + a == [c] + b <==> a == b
  {
    assert ([c] + a)[1..] == a && ([c] + b)[1..] == b;
  }

  lemma NumbersStep(c: char, rest: string, quoted: bool)
    requires quoted || c != '$'
    ensures Numbers([c] + rest, quoted) == if c == QUOTE then Numbers(rest, !quoted) else Numbers(rest, quoted)
  {
    assert ([c] + rest)[1..] == rest;
  }

  /** `n` numbers in order, from `first` on. */
  function Counted(first: nat, n: nat): seq<nat> {
    seq(n, k requires 0 <= k < n => first + k)
  }

  lemma CountedOn(first: nat, n: nat)
    ensures [first] + Counted(first + 1, n) == Counted(first, n + 1)
  {
  }

  lemma PlaceholderIsNumbered(query: string, parameter: nat)
    requires query != [] && query[0] == '?' && PlaceholderEnds(query)
    ensures Numbers(Bound(query, false, parameter), false)
            == [parameter] + Numbers(Bound(query[1..], false, parameter + 1), false)
  {
    hide Bound, Decimal, DigitsOf, Numbers, Value;
    AfterPlaceholder(query, parameter);
    ValueOfDecimal(parameter);
    NumbersOfPlaceholder(Decimal(parameter) + Bound(query[1..], false, parameter + 1));
  }

  /** The numbers read back from a readable query are its placeholders, in order and without gaps. */
  lemma {:induction false} NumbersAreReadBack(query: string, quoted: bool, parameter: nat)
    requires Readable(query, quoted)
    ensures Numbers(Bound(query, quoted, parameter), quoted) == Counted(parameter, Placeholders(query, quoted))
  {
    if query == [] {
      NothingToNumber(quoted, parameter);
    } else {
      hide Bound, Numbers, Counted;
      var c, rest := query[0], query[1..];
      if c == '?' && !quoted {
        NumbersAreReadBack(rest, quoted, parameter + 1);
        PlaceholderIsNumbered(query, parameter);
        CountedOn(parameter, Placeholders(rest, quoted));
      } else {
        BoundStep(query, quoted, parameter);
        NumbersAreReadBack(rest, if c == QUOTE then !quoted else quoted, parameter);
        NumbersStep(c, Bound(rest, if c == QUOTE then !quoted else quoted, parameter), quoted);
      }
    }
  }

  lemma NothingToNumber(quoted: bool, parameter: nat)
    ensures Numbers(Bound([], quoted, parameter), quoted) == Counted(parameter, 0)
  {
  }

  lemma NumbersOfPlaceholder(rest: string)
    ensures Numbers(['$'] + rest, false) == [Value(DigitsOf(rest))] + Numbers(rest[|DigitsOf(rest)|..], false)
  {
    var s := ['$'] + rest;
    assert s[1..] == rest && s[1 + |DigitsOf(rest)|..] == rest[|DigitsOf(rest)|..];
  }

  /** The text between quotes, quotes included. */
  function QuotedText(s: string, quoted: bool): string {
    if s == [] then []
    else if s[0] == QUOTE then [QUOTE] + QuotedText(s[1..], !quoted)
    else if quoted then [s[0]] + QuotedText(s[1..], quoted)
    else QuotedText(s[1..], quoted)
  }

  lemma {:induction false} DigitsAreNotQuoted(digits: string, rest: string)
    requires forall k :: 0 <= k < |digits| ==> IsDigit(digits[k])
    ensures QuotedText(digits + rest, false) == QuotedText(rest, false)
  {
    if digits == [] {
      assert digits + rest == rest;
    } else {
      DigitsAreNotQuoted(digits[1..], rest);
      assert (digits + rest)[1..] == digits[1..] + rest;
    }
  }

  lemma QuotedStep(c: char, rest: string, quoted: bool)
    ensures QuotedText([c] + rest, quoted) ==
            if c == QUOTE then [QUOTE] + QuotedText(rest, !quoted)
            else if quoted then [c] + QuotedText(rest, quoted) else QuotedText(rest, quoted)
  {
    assert ([c] + rest)[1..] == rest;
  }

  /** Quoted text is left as it is, for every query. */
  lemma {:induction false} QuotedTextIsUntouched(query: string, quoted: bool, parameter: nat)
    ensures QuotedText(Bound(query, quoted, parameter), quoted) == QuotedText(query, quoted)
  {
    if query != [] {
      hide Bound, QuotedText, Decimal;
      var c, rest := query[0], query[1..];
      BoundStep(query, quoted, parameter);
      QuotedStep(c, rest, quoted);
      if c == QUOTE {
        QuotedTextIsUntouched(rest, !quoted, parameter);
        QuotedStep(QUOTE, Bound(rest, !quoted, parameter), quoted);
      } else if c == '?' && !quoted {
        var later := Bound(rest, quoted, parameter + 1);
        QuotedTextIsUntouched(rest, quoted, parameter + 1);
        QuotedStep('$', Decimal(parameter) + later, quoted);
        DigitsAreNotQuoted(Decimal(parameter), later);
      } else {
        QuotedTextIsUntouched(rest, quoted, parameter);
        QuotedStep(c, Bound(rest, quoted, parameter), quoted);
      }
    }
  }

  /** Two queries that are not recovered: a `$` of its own, and a digit behind a placeholder. */
  lemma UnreadableQueriesAreAmbiguous()
    ensures Unbound(Bound("$1", false, 1), false) != "$1"
    ensures Unbound(Bound("?1", false, 1), false) != "?1"
  {
    assert !Readable("$1", false) && !Readable("?1", false);
    hide Bound, Unbound;
    BindingIsReversible("$1", false, 1);
    BindingIsReversible("?1", false, 1);
  }
}
