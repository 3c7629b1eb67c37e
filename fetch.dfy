/**
 * `TrendTracker.fetch_price`: the part that is not network or HTML parsing.
 * The HTTP response and the `.price_color` lookup arrive as a `Response`
 * value, and the `float(...)` conversion is a parameter that answers
 * `None` where Python's `float` would raise.
 */
module Fetch {
  import opened Wrappers
  import opened Store

  /** `text.replace(c, '')` for a one-character `c`: every `c` removed. */
  function RemoveChar(text: string, c: char): (r: string)
    ensures c !in r
    ensures forall x :: x in r ==> x in text
  {
    if text == [] then []
    else (if text[0] == c then [] else [text[0]]) + RemoveChar(text[1..], c)
  }

  /** Removing a character works piece by piece: it neither reorders nor
      moves anything across the seam of a concatenation. */
  lemma {:induction false} RemoveCharAppend(a: string, b: string, c: char)
    ensures RemoveChar(a + b, c) == RemoveChar(a, c) + RemoveChar(b, c)
  {
    if a != [] {
      assert (a + b)[1..] == a[1..] + b;
      RemoveCharAppend(a[1..], b, c);
    } else {
      assert a + b == b;
    }
  }

  lemma RemoveCharSingle(ch: char, c: char)
    ensures RemoveChar([ch], c) == if ch == c then [] else [ch]
  {
    assert [ch][1..] == [];
    assert RemoveChar([], c) == [];
  }

  /** A text without `c` is left exactly as it was. */
  lemma {:induction false} RemoveAbsentChar(text: string, c: char)
    requires c !in text
    ensures RemoveChar(text, c) == text
  {
    if text != [] {
      RemoveAbsentChar(text[1..], c);
    }
  }

  /** Every character other than `c` keeps its number of occurrences. */
  lemma {:induction false} RemoveCharCounts(text: string, c: char, x: char)
    requires x != c
    ensures multiset(RemoveChar(text, c))[x] == multiset(text)[x]
  {
    if text != [] {
      RemoveCharCounts(text[1..], c, x);
      assert text == [text[0]] + text[1..];
    }
  }

  /** The currency symbols `fetch_price` strips before parsing. */
  predicate IsCurrencySymbol(ch: char) {
    ch == '£' || ch == '$'
  }

  /** `price_text.replace('£', '').replace('$', '')`. */
  function StripCurrency(text: string): (r: string)
    ensures forall x :: x in r ==> x in text && !IsCurrencySymbol(x)
  {
    RemoveChar(RemoveChar(text, '£'), '$')
  }

  /** Stripping keeps every other character, each as often as before. */
  lemma StripCurrencyCounts(text: string, x: char)
    requires !IsCurrencySymbol(x)
    ensures multiset(StripCurrency(text))[x] == multiset(text)[x]
  {
    RemoveCharCounts(text, '£', x);
    RemoveCharCounts(RemoveChar(text, '£'), '$', x);
  }

  /** Stripping keeps the order: it distributes over concatenation, and a
      single character is kept unless it is a currency symbol. */
  lemma StripCurrencyAppend(a: string, b: string)
    ensures StripCurrency(a + b) == StripCurrency(a) + StripCurrency(b)
  {
    RemoveCharAppend(a, b, '£');
    RemoveCharAppend(RemoveChar(a, '£'), RemoveChar(b, '£'), '$');
  }

  lemma StripCurrencySingle(ch: char)
    ensures StripCurrency([ch]) == if IsCurrencySymbol(ch) then [] else [ch]
  {
    RemoveCharSingle(ch, '£');
    RemoveCharSingle(ch, '$');
    assert RemoveChar([], '$') == [];
  }

  /** Text without currency symbols passes through unchanged, so stripping
      twice is the same as stripping once. */
  lemma StripCurrencyPlain(text: string)
    requires forall x :: x in text ==> !IsCurrencySymbol(x)
    ensures StripCurrency(text) == text
  {
    RemoveAbsentChar(text, '£');
    RemoveAbsentChar(text, '$');
  }

  lemma StripCurrencyIdempotent(text: string)
    ensures StripCurrency(StripCurrency(text)) == StripCurrency(text)
  {
    StripCurrencyPlain(StripCurrency(text));
  }

  /** What the request and the `.price_color` lookup produced: the request
      or the HTTP status failed, or a page came back with or without the
      price element's text. */
  datatype Response = RequestFailed | Page(priceText: Option<string>)

  /** `fetch_price`: `None` when the request fails, when the page has no
      price element, or when the stripped text does not parse; otherwise the
      parsed price of the text with its currency symbols removed. */
  function FetchPrice(response: Response, parse: string -> Option<Price>): (p: Option<Price>)
    ensures response.RequestFailed? ==> p.None?
    ensures response.Page? && response.priceText.None? ==> p.None?
    ensures response.Page? && response.priceText.Some? ==> p == parse(StripCurrency(response.priceText.value))
    ensures p.None? <==> response.RequestFailed? || response.priceText.None?
                         || parse(StripCurrency(response.priceText.value)).None?
  {
    match response
    case RequestFailed => None
    case Page(None) => None
    case Page(Some(text)) => parse(StripCurrency(text))
  }
}
