/**
 * The analysis response schema (backend/constants/analysisSchema.js): the
 * shape the handler asks Gemini to give its reply in.
 */
module AnalysisSchema {
  import opened Wrappers
  import opened Json
  import opened Schema

  const ScoreDescription := "The resume score out of 100, focusing on the career goal."
  const SkillsDescription := "3 crucial skills missing for the target role, grounded in current industry needs."
  const CertificationsDescription := "3 highly relevant certifications or courses (e.g., Coursera, AWS, Google) to bridge the skill gap."
  const OpportunitiesDescription := "3 real-world opportunities (e.g., hackathons, open-source projects, specialized internships) to gain experience."
  const SummaryDescription := "A concise, 3-sentence summary of the resume's strengths and weaknesses against the career goal."

  /** The `recommendations` node: two string arrays and no `required` list. */
  const Recommendations: Schema := SObject(
    [ ("certifications", SArray(SString(None), Some(CertificationsDescription))),
      ("opportunities", SArray(SString(None), Some(OpportunitiesDescription))) ],
    [], None)

  const Analysis: Schema := SObject(
    [ ("resumeScore", SInteger(Some(ScoreDescription))),
      ("missingSkills", SArray(SString(None), Some(SkillsDescription))),
      ("recommendations", Recommendations),
      ("summary", SString(Some(SummaryDescription))) ],
    ["resumeScore", "missingSkills", "recommendations", "summary"], None)

  predicate IsStringArray(v: Json) {
    v.JArray? && forall i :: 0 <= i < |v.items| ==> v.items[i].JString?
  }

  /** Either `key` is absent from `fields` or it holds an array of strings. */
  predicate OptionalStringArray(fields: map<string, Json>, key: string) {
    key in fields ==> IsStringArray(fields[key])
  }

  predicate IsRecommendations(v: Json) {
    v.JObject? && OptionalStringArray(v.fields, "certifications") && OptionalStringArray(v.fields, "opportunities")
  }

  /** A reply of the promised shape, written out field by field. */
  predicate IsAnalysisReply(v: Json) {
    && v.JObject?
    && "resumeScore" in v.fields && v.fields["resumeScore"].JNum?
    && "missingSkills" in v.fields && IsStringArray(v.fields["missingSkills"])
    && "recommendations" in v.fields && IsRecommendations(v.fields["recommendations"])
    && "summary" in v.fields && v.fields["summary"].JString?
  }

  lemma StringArrayConformance(v: Json, d: Option<string>)
    ensures Conforms(v, SArray(SString(None), d)) <==> IsStringArray(v)
  {
  }

  lemma RecommendationsConformance(v: Json)
    ensures Conforms(v, Recommendations) <==> IsRecommendations(v)
  {
    if v.JObject? && "certifications" in v.fields {
      StringArrayConformance(v.fields["certifications"], Some(CertificationsDescription));
    }
    if v.JObject? && "opportunities" in v.fields {
      StringArrayConformance(v.fields["opportunities"], Some(OpportunitiesDescription));
    }
    if v.JObject? && IsRecommendations(v) {
      forall i | 0 <= i < |Recommendations.properties| && Recommendations.properties[i].0 in v.fields
        ensures Conforms(v.fields[Recommendations.properties[i].0], Recommendations.properties[i].1)
      {
        assert i == 0 || i == 1;
      }
    }
    if Conforms(v, Recommendations) {
      assert Recommendations.properties[0].0 == "certifications";
      assert Recommendations.properties[1].0 == "opportunities";
    }
  }

  /** Conforming to the analysis schema is exactly having the shape `IsAnalysisReply` spells out. */
  lemma AnalysisConformance(v: Json)
    ensures Conforms(v, Analysis) <==> IsAnalysisReply(v)
  {
    if v.JObject? {
      var p := Analysis.properties;
      if "missingSkills" in v.fields {
        StringArrayConformance(v.fields["missingSkills"], Some(SkillsDescription));
      }
      if "recommendations" in v.fields {
        RecommendationsConformance(v.fields["recommendations"]);
      }
      if IsAnalysisReply(v) {
        forall i | 0 <= i < |p| && p[i].0 in v.fields ensures Conforms(v.fields[p[i].0], p[i].1) {
          assert i == 0 || i == 1 || i == 2 || i == 3;
        }
      }
      if Conforms(v, Analysis) {
        assert p[0].0 == "resumeScore" && p[1].0 == "missingSkills";
        assert p[2].0 == "recommendations" && p[3].0 == "summary";
      }
    }
  }

  /** The required top-level keys are exactly these four, and they are the only properties. */
  lemma RequiredKeys()
    ensures Analysis.required == ["resumeScore", "missingSkills", "recommendations", "summary"]
    ensures PropertyNames(Analysis) == Analysis.required
  {
  }

  /** The smallest conforming reply with score `score`. */
  function MinimalReply(score: int): Json {
    JObject(map[
      "resumeScore" := JNum(score),
      "missingSkills" := JArray([]),
      "recommendations" := JObject(map[]),
      "summary" := JString("")])
  }

  /**
   * The schema bounds nothing beyond types: any integer score, empty
   * arrays, an empty summary and a `recommendations` object without either
   * list all conform.
   */
  lemma ScoreIsUnbounded(score: int)
    ensures Conforms(MinimalReply(score), Analysis)
  {
    AnalysisConformance(MinimalReply(score));
  }
}
