/**
 * Properties that span both halves: what the page shows for the records the
 * backend shapes, and which queries get past one guard but not the other.
 */
module EndToEnd {
  import opened Wrappers
  import opened Json
  import Text
  import opened Backend
  import opened SearchPortal

  /**
   * A traditional-search record shown in traditional mode: the card body is
   * the truncated profile, or the placeholder when the profile was NULL or
   * empty; the link is shown exactly when the row's URL is truthy, and a
   * URL that is text or NULL never shows as stray text.
   */
  lemma TraditionalCardShowsTruncatedProfile(row: Row, record: Object)
    requires ShapeRow(row) == Some(record)
    ensures var text := TruncateProfile(ProfileText(row.profile).value);
            CardFor(record, TraditionalMode).body == if text == "" then Some(Str(NoProfile)) else Some(Str(text))
    ensures CardFor(record, TraditionalMode).link.Link? <==> Truthy(Some(row.url))
    ensures row.url.Str? || row.url.Null? ==> !CardFor(record, TraditionalMode).link.StrayLinkText?
    ensures CardFor(record, TraditionalMode).badge == NoBadge
  {
    assert Get(record, "Profile_Chunk") == Some(record["Profile_Chunk"]);
    assert Get(record, "URL") == Some(row.url);
  }

  /**
   * Every card body of a traditional-search answer shown in traditional
   * mode starts with the first characters of the stored profile (at most
   * 200 of them), or is the placeholder.
   */
  lemma TraditionalCardBodyIsProfilePrefix(row: Row, record: Object)
    requires ShapeRow(row) == Some(record)
    ensures var profile := ProfileText(row.profile).value;
            var n := if |profile| < ProfileLimit then |profile| else ProfileLimit;
            var body := CardFor(record, TraditionalMode).body;
            body == Some(Str(NoProfile)) || (body.Some? && body.value.Str? && n <= |body.value.s| && body.value.s[..n] == profile[..n])
  {
    TraditionalCardShowsTruncatedProfile(row, record);
  }

  /**
   * The body is shown verbatim even when it is only whitespace: a non-empty
   * profile of at most 200 characters that `trim` would empty is the card
   * body itself, not the placeholder.
   */
  lemma WhitespaceProfileShowsAsIs(row: Row, record: Object)
    requires ShapeRow(row) == Some(record)
    requires row.profile.Str? && row.profile.s != "" && |row.profile.s| <= ProfileLimit
    requires Text.JsTrim(row.profile.s) == []
    ensures CardFor(record, TraditionalMode).body == Some(Str(row.profile.s))
    ensures CardFor(record, TraditionalMode).body != Some(Str(NoProfile))
  {
    TraditionalCardShowsTruncatedProfile(row, record);
    Text.TrimSpec(row.profile.s, Text.JavaScript);
    assert !Text.IsJsWhitespace(NoProfile[0]);
  }

  /**
   * A vector-search record without a similarity is sent with similarity 0,
   * and in vector mode the page as written then shows a bare "0" where the
   * badge would be; the intended slot shows nothing.
   */
  lemma MissingSimilarityShowsStrayZero(o: Object)
    requires SimilarityKey !in o
    ensures Normalize(o).Some?
    ensures BadgeAsWritten(Normalize(o).value, VectorMode) == StrayText(Num(0.0))
    ensures Badge(Normalize(o).value, VectorMode) == NoBadge
  {
    var n := Normalize(o).value;
    assert Get(n, "Similarity") == Some(Num(0.0));
    ZeroSimilarityShowsStrayZero(n);
  }

  /** The same happens to every negative similarity, which the backend clamps to 0. */
  lemma NegativeSimilarityShowsStrayZero(o: Object)
    requires SimilarityKey in o && o[SimilarityKey].Num? && o[SimilarityKey].x < 0.0
    ensures Normalize(o).Some?
    ensures BadgeAsWritten(Normalize(o).value, VectorMode) == StrayText(Num(0.0))
  {
    var n := Normalize(o).value;
    assert n[SimilarityKey] == Num(Clamp(o[SimilarityKey].x));
    assert Get(n, "Similarity") == Some(Num(0.0));
    ZeroSimilarityShowsStrayZero(n);
  }

  /**
   * For a record the vector endpoint sends, the card in vector mode shows a
   * badge exactly when its clamped similarity is positive, with that
   * similarity, which lies in (0, 1]; otherwise the card as written shows a
   * stray "0" and the intended card nothing. Traditional mode shows neither.
   */
  lemma VectorBadgeShowsPositiveSimilarity(o: Object, sent: Object)
    requires Normalize(o) == Some(sent)
    ensures CardFor(sent, VectorMode).badge.Match? <==> sent[SimilarityKey].x > 0.0
    ensures CardFor(sent, VectorMode).badge.Match? ==>
      CardFor(sent, VectorMode).badge.similarity.Num? && 0.0 < CardFor(sent, VectorMode).badge.similarity.x <= 1.0
    ensures !CardFor(sent, VectorMode).badge.Match? ==>
      CardFor(sent, VectorMode).badge == StrayText(Num(0.0)) && CardForIntended(sent, VectorMode).badge == NoBadge
    ensures CardFor(sent, TraditionalMode).badge == NoBadge
  {
    assert Get(sent, SimilarityKey) == Some(sent[SimilarityKey]);
  }

  /**
   * A query made of U+001C passes the page's guard and is sent unchanged to
   * the traditional endpoint, whose guard finds it blank and answers 400.
   * As written the page then stores the error body and shows nothing at
   * all (SearchPortal.ErrorAnswerBlanksPage).
   */
  lemma SeparatorQueryReachesBackendGuard(mode: string)
    ensures RequestFor("\U{1C}", mode) == Some(Request("POST", Endpoint(mode), "application/json", "\U{1C}"))
    ensures Text.PyStrip("\U{1C}") == []
  {
    Text.SeparatorBlankOnlyForPython();
  }
}
