/** The tags service (src/services/new-relic-tags-service.ts): parsing of
    `newrelic.<environment>-<service>` tags and the `queryTags` pipeline. */
module TagsService {
  import opened Wrappers

  datatype Environment = Prod | Staging

  datatype ParsedTag = ParsedTag(originalTag: string, environment: Environment, serviceName: string)

  const TagPrefix: string := "newrelic."

  function EnvironmentPrefix(e: Environment): string
  {
    match e
    case Prod => "prod-"
    case Staging => "staging-"
  }

  /** The tag a service carries in an environment. */
  function FormatTag(e: Environment, serviceName: string): string
  {
    TagPrefix + EnvironmentPrefix(e) + serviceName
  }

  /** `parseTag`: strip `newrelic.`, then `prod-` or else `staging-`; any
      other tag is rejected. The service name may be empty. */
  function ParseTag(tag: string): (r: Option<ParsedTag>)
    ensures r.Some? ==> r.value.originalTag == tag
    ensures r.Some? ==> FormatTag(r.value.environment, r.value.serviceName) == tag
  {
    if !(TagPrefix <= tag) then None
    else
      var value := tag[|TagPrefix|..];
      assert tag == TagPrefix + value;
      if "prod-" <= value then
        assert value == "prod-" + value[5..];
        Some(ParsedTag(tag, Prod, value[5..]))
      else if "staging-" <= value then
        assert value == "staging-" + value[8..];
        Some(ParsedTag(tag, Staging, value[8..]))
      else None
  }

  /** Formatting then parsing gives back the environment and the service. */
  lemma ParseFormatted(e: Environment, serviceName: string)
    ensures ParseTag(FormatTag(e, serviceName)) == Some(ParsedTag(FormatTag(e, serviceName), e, serviceName))
  {
    var tag := FormatTag(e, serviceName);
    assert tag[..|TagPrefix|] == TagPrefix;
    var value := tag[|TagPrefix|..];
    assert value == EnvironmentPrefix(e) + serviceName;
    if e == Staging {
      assert value[0] == 's';
    }
  }

  /** A tag is accepted exactly when it is the formatted tag of some
      environment and service name. */
  lemma ParseTagAcceptsExactlyFormattedTags(tag: string)
    ensures ParseTag(tag).Some? <==> exists e: Environment, n: string :: tag == FormatTag(e, n)
  {
    if ParseTag(tag).Some? {
      var p := ParseTag(tag).value;
      assert tag == FormatTag(p.environment, p.serviceName);
    }
    if exists e: Environment, n: string :: tag == FormatTag(e, n) {
      var e: Environment, n: string :| tag == FormatTag(e, n);
      ParseFormatted(e, n);
    }
  }

  /** The parsed tags of a list, in order, skipping rejected ones. */
  function ParseAll(tags: seq<string>): seq<ParsedTag>
  {
    if tags == [] then []
    else
      var last := ParseTag(tags[|tags| - 1]);
      ParseAll(tags[..|tags| - 1]) + (if last.Some? then [last.value] else [])
  }

  lemma {:induction false} ParseAllAppend(a: seq<string>, b: seq<string>)
    ensures ParseAll(a + b) == ParseAll(a) + ParseAll(b)
    decreases |b|
  {
    if b == [] {
      assert a + b == a;
    } else {
      var b' := b[..|b| - 1];
      assert (a + b)[..|a + b| - 1] == a + b';
      assert (a + b)[|a + b| - 1] == b[|b| - 1];
      ParseAllAppend(a, b');
    }
  }

  /** Every parsed tag comes from the input and is its parse; every
      accepted input tag is kept. */
  lemma {:induction false} ParseAllMembership(tags: seq<string>, p: ParsedTag)
    ensures p in ParseAll(tags) <==> p.originalTag in tags && ParseTag(p.originalTag) == Some(p)
    decreases |tags|
  {
    if tags != [] {
      var init := tags[..|tags| - 1];
      var last := tags[|tags| - 1];
      ParseAllMembership(init, p);
      assert tags == init + [last];
      assert p.originalTag in tags <==> p.originalTag in init || p.originalTag == last;
      if ParseTag(last) == Some(p) {
        assert p.originalTag == last;
      }
    }
  }

  lemma {:induction false} ParseAllLength(tags: seq<string>)
    ensures |ParseAll(tags)| <= |tags|
    decreases |tags|
  {
    if tags != [] {
      ParseAllLength(tags[..|tags| - 1]);
    }
  }

  /** The environment filter, applied only when an environment is given. */
  function Selected(environment: Option<Environment>, tags: seq<ParsedTag>): (r: seq<ParsedTag>)
    ensures |r| <= |tags|
    ensures forall p :: p in r <==> p in tags && (environment.None? || p.environment == environment.value)
    ensures environment.None? ==> r == tags
  {
    if environment.None? || tags == [] then tags
    else
      var rest := Selected(environment, tags[1..]);
      assert forall p :: p in tags <==> p == tags[0] || p in tags[1..];
      if tags[0].environment == environment.value then [tags[0]] + rest else rest
  }

  /** One row of the upstream answer: the `uniques.tag` field, absent or an
      array of tags. */
  datatype TagRow = TagRow(uniquesTag: Option<seq<string>>)

  /** `rawTags`: the first row's tags, or nothing. */
  function RawTags(rows: seq<TagRow>): seq<string>
  {
    if rows == [] then [] else rows[0].uniquesTag.GetOr([])
  }

  datatype TagsMetadata = TagsMetadata(totalCount: nat, elapsedTime: int)

  datatype TagsQueryResult = TagsQueryResult(tags: seq<ParsedTag>, metadata: TagsMetadata)

  /** `queryTags`: `rows` is the answer of the upstream query, or the error
      it raised, which is rethrown. */
  method QueryTags(environment: Option<Environment>, rows: Result<seq<TagRow>, string>, elapsedTime: int)
    returns (r: Result<TagsQueryResult, string>)
    ensures rows.Failure? ==> r == Failure(rows.error)
    ensures rows.Success? ==>
      && r.Success?
      && r.value.tags == Selected(environment, ParseAll(RawTags(rows.value)))
      && r.value.metadata == TagsMetadata(|r.value.tags|, elapsedTime)
  {
    if rows.Failure? {
      return Failure(rows.error);
    }
    var rawTags: seq<string> := [];
    if |rows.value| > 0 {
      rawTags := rows.value[0].uniquesTag.GetOr([]);
    }
    var parsedTags: seq<ParsedTag> := [];
    var i := 0;
    while i < |rawTags|
      invariant 0 <= i <= |rawTags|
      invariant parsedTags == ParseAll(rawTags[..i])
    {
      var parsedTag := ParseTag(rawTags[i]);
      assert rawTags[..i + 1][..i] == rawTags[..i];
      if parsedTag.Some? {
        parsedTags := parsedTags + [parsedTag.value];
      }
      i := i + 1;
    }
    assert rawTags[..i] == rawTags;
    if environment.Some? {
      parsedTags := Selected(environment, parsedTags);
    }
    return Success(TagsQueryResult(parsedTags, TagsMetadata(|parsedTags|, elapsedTime)));
  }

  /** What a successful `queryTags` reports: a tag is in the result exactly
      when it is the parse of a raw tag of the first row and lies in the
      requested environment, if one was requested. */
  lemma QueryTagsCharacterization(environment: Option<Environment>, rows: seq<TagRow>, p: ParsedTag)
    ensures p in Selected(environment, ParseAll(RawTags(rows)))
        <==> && p.originalTag in RawTags(rows)
             && ParseTag(p.originalTag) == Some(p)
             && (environment.None? || p.environment == environment.value)
  {
    ParseAllMembership(RawTags(rows), p);
  }
}
