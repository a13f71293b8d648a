/**
 * How the newest matcher (expectations/filter.go) and the oldest one
 * (controller.go, repeated in gzserver.go) relate: the string test agrees
 * whenever the empty expression matches everything, while header names are
 * folded in one and compared exactly in the other.
 */
module Generations {
  import opened Wrappers
  import opened Text
  import opened Http
  import Expectations
  import Filter
  import Model
  import Controller

  /**
   * The newest string test differs from the oldest only in returning true for
   * an empty pattern without consulting the regular-expression engine; with an
   * engine in which `(?s)` compiles and matches every string they agree.
   */
  lemma StringTestsAgree(re: Regexp, s: string, pattern: string)
    requires re.compiles("(?s)")
    requires forall t :: re.matchString("(?s)", t)
    ensures Filter.StringsMatch(re, s, pattern) == Controller.ControllerStringPassesFilter(re, s, pattern)
  {
    if pattern == "" {
      assert "(?s)" + pattern == "(?s)";
    }
  }

  /**
   * For two spellings `name` and `sent` of one header name under case
   * folding, a filter on `name` whose value pattern accepts the value of a
   * request that sends only `sent` is met by the newest matcher and refused by
   * the oldest.
   */
  lemma HeaderCaseDiffers(re: Regexp, httpMethod: string, path: string, body: string,
                          name: string, sent: string, value: string, pattern: string)
    requires name != sent && EqualFold(name, sent)
    requires Filter.StringsMatch(re, value, pattern)
    ensures Filter.FilterMustMatch(re,
              Expectations.ExpectationRequest(httpMethod, path, body, map[sent := value]),
              Some(Expectations.ExpectationRequest("", "", "", map[name := pattern])))
    ensures !Controller.ControllerRequestPassesFilter(re,
              Model.ExpectationRequest(httpMethod, path, body, Some(map[sent := value])),
              Some(Model.ExpectationRequest("", "", "", Some(map[name := pattern]))))
  {
    EqualFoldIsEquivalence(sent, name, name);
    assert Filter.HeaderMustMatch(re, map[sent := value], name, pattern);
    Controller.HeaderNamesCaseSensitive(re,
      Model.ExpectationRequest(httpMethod, path, body, Some(map[sent := value])),
      Model.ExpectationRequest("", "", "", Some(map[name := pattern])), name);
  }
}
