/**
 * The checks the new-fact form makes before it sends anything to the store:
 * the http(s) test on the source link and the four-part submission guard.
 */
module Validation {
  import opened Wrappers

  /** The category names offered by the form's select and the category filter. */
  const Categories: seq<string> :=
    ["technology", "science", "finance", "society", "entertainment", "health", "history", "news"]

  /** The longest text the form accepts, in UTF-16 code units. */
  const MaxTextLength: nat := 200

  /**
   * `string.length` of a JavaScript string: the number of UTF-16 code units,
   * so a character outside the Basic Multilingual Plane counts twice.
   */
  function Utf16Length(s: string): (n: nat)
    ensures |s| <= n <= 2 * |s|
    ensures n == |s| <==> forall i :: 0 <= i < |s| ==> s[i] as int < 0x1_0000
  {
    if s == [] then 0
    else (if s[0] as int < 0x1_0000 then 1 else 2) + Utf16Length(s[1..])
  }

  /**
   * `isValidHttpUrl`. `parse` stands for the browser's `URL` constructor:
   * `None` when it throws, otherwise the `protocol` of the parsed URL.
   */
  predicate IsValidHttpUrl(s: string, parse: string -> Option<string>)
    ensures IsValidHttpUrl(s, parse) ==> parse(s).Some?
  {
    match parse(s)
    case None => false
    case Some(protocol) => protocol == "http:" || protocol == "https:"
  }

  /**
   * The guard of `handleSubmit`: text non-empty, source an http(s) link,
   * category non-empty, text at most 200 code units long.
   */
  predicate CanSubmit(text: string, source: string, category: string, parse: string -> Option<string>)
    ensures CanSubmit(text, source, category, parse) ==> 1 <= |text| <= MaxTextLength && parse(source).Some?
  {
    text != "" && IsValidHttpUrl(source, parse) && category != "" && Utf16Length(text) <= MaxTextLength
  }

  /** What a submission that passes the guard is known to satisfy, and which inputs it always refuses. */
  lemma SubmitGuardBounds(text: string, source: string, category: string, parse: string -> Option<string>)
    ensures CanSubmit(text, source, category, parse) ==> 1 <= |text| <= 200 && category != ""
    ensures |text| > 200 || text == "" || category == "" || parse(source).None? ==>
      !CanSubmit(text, source, category, parse)
    ensures (forall i :: 0 <= i < |text| ==> text[i] as int < 0x1_0000) ==>
      (CanSubmit(text, source, category, parse) <==>
        1 <= |text| <= 200 && category != "" && IsValidHttpUrl(source, parse))
  {
  }

  /**
   * The guard checks only that a category was chosen, not which one: for any
   * text and link, two non-empty category names get the same verdict.
   */
  lemma {:induction false} AnyChosenCategoryPasses(text: string, source: string, c1: string, c2: string,
                                                   parse: string -> Option<string>)
    requires c1 != "" && c2 != ""
    ensures CanSubmit(text, source, c1, parse) == CanSubmit(text, source, c2, parse)
  {
  }

  /** So a name outside `Categories` passes exactly when a known one would. */
  lemma {:induction false} UnknownCategoryPasses(text: string, source: string, parse: string -> Option<string>)
    ensures "astrology" !in Categories && "science" in Categories
    ensures CanSubmit(text, source, "astrology", parse) == CanSubmit(text, source, "science", parse)
  {
    AnyChosenCategoryPasses(text, source, "astrology", "science", parse);
  }
}
