/** The regular-expression engine the analyzer calls, left abstract. The model
    never interprets a pattern: it only asks the engine how many matches a
    pattern has in a text, or where they are. */
module Regex {

  /** A `RegExp` as the analyzer constructs it: the pattern's source text and its flags. */
  datatype Regex = Regex(source: string, flags: string)

  /** One result of `RegExp.prototype.exec`: the offset where the match starts
      and the text of capture groups 1 and 2 ("" when a group took no part). */
  datatype RegexMatch = RegexMatch(index: nat, group1: string, group2: string)

  /** An engine. `count(r, t)` is the length of `t.match(r)` for a global `r`
      (0 where `match` returns null); `exec(r, t)` lists the results of calling
      `r.exec(t)` repeatedly until it returns null. */
  datatype Matcher = Matcher(
    count: (Regex, string) -> nat,
    exec: (Regex, string) -> seq<RegexMatch>)

  /** `r.test(t)` on a freshly built regular expression: some match exists. */
  predicate Test(m: Matcher, r: Regex, t: string)
  {
    m.count(r, t) > 0
  }
}
