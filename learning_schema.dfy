/**
 * The learning-resource schema (backend/constants/learningSchema.js): the
 * shape of a reply listing courses and opportunities.
 */
module LearningSchema {
  import opened Wrappers
  import opened Json
  import opened Schema

  const Course: Schema := SObject(
    [ ("title", SString(None)), ("provider", SString(None)), ("link", SString(None)),
      ("cost", SString(None)), ("duration", SString(None)), ("level", SString(None)) ],
    ["title", "provider", "link"], None)

  const Opportunity: Schema := SObject(
    [ ("name", SString(None)), ("description", SString(None)),
      ("link", SString(None)), ("difficulty", SString(None)) ],
    ["name", "link"], None)

  const Learning: Schema := SObject(
    [ ("courses", SArray(Course, None)), ("opportunities", SArray(Opportunity, None)) ],
    ["courses", "opportunities"], None)

  predicate RequiredString(fields: map<string, Json>, key: string) {
    key in fields && fields[key].JString?
  }

  predicate OptionalString(fields: map<string, Json>, key: string) {
    key in fields ==> fields[key].JString?
  }

  /** A course: `title`, `provider` and `link` present; `cost`, `duration` and `level` optional; all strings. */
  predicate IsCourse(v: Json) {
    && v.JObject?
    && RequiredString(v.fields, "title") && RequiredString(v.fields, "provider") && RequiredString(v.fields, "link")
    && OptionalString(v.fields, "cost") && OptionalString(v.fields, "duration") && OptionalString(v.fields, "level")
  }

  /** An opportunity: `name` and `link` present; `description` and `difficulty` optional; all strings. */
  predicate IsOpportunity(v: Json) {
    && v.JObject?
    && RequiredString(v.fields, "name") && RequiredString(v.fields, "link")
    && OptionalString(v.fields, "description") && OptionalString(v.fields, "difficulty")
  }

  predicate IsLearningReply(v: Json) {
    && v.JObject?
    && "courses" in v.fields && v.fields["courses"].JArray?
    && (forall i :: 0 <= i < |v.fields["courses"].items| ==> IsCourse(v.fields["courses"].items[i]))
    && "opportunities" in v.fields && v.fields["opportunities"].JArray?
    && (forall i :: 0 <= i < |v.fields["opportunities"].items| ==> IsOpportunity(v.fields["opportunities"].items[i]))
  }

  lemma CourseConformance(v: Json)
    ensures Conforms(v, Course) <==> IsCourse(v)
  {
    var p := Course.properties;
    if v.JObject? && Conforms(v, Course) {
      assert p[0].0 == "title" && p[1].0 == "provider" && p[2].0 == "link";
      assert p[3].0 == "cost" && p[4].0 == "duration" && p[5].0 == "level";
    }
    if IsCourse(v) {
      forall i | 0 <= i < |p| && p[i].0 in v.fields ensures Conforms(v.fields[p[i].0], p[i].1) {
        assert i == 0 || i == 1 || i == 2 || i == 3 || i == 4 || i == 5;
      }
    }
  }

  lemma OpportunityConformance(v: Json)
    ensures Conforms(v, Opportunity) <==> IsOpportunity(v)
  {
    var p := Opportunity.properties;
    if v.JObject? && Conforms(v, Opportunity) {
      assert p[0].0 == "name" && p[1].0 == "description" && p[2].0 == "link" && p[3].0 == "difficulty";
    }
    if IsOpportunity(v) {
      forall i | 0 <= i < |p| && p[i].0 in v.fields ensures Conforms(v.fields[p[i].0], p[i].1) {
        assert i == 0 || i == 1 || i == 2 || i == 3;
      }
    }
  }

  /** Conforming to the learning schema is exactly having the shape `IsLearningReply` spells out. */
  lemma LearningConformance(v: Json)
    ensures Conforms(v, Learning) <==> IsLearningReply(v)
  {
    if v.JObject? && "courses" in v.fields && "opportunities" in v.fields {
      var cs := v.fields["courses"];
      var os := v.fields["opportunities"];
      if cs.JArray? {
        forall i | 0 <= i < |cs.items| ensures Conforms(cs.items[i], Course) <==> IsCourse(cs.items[i]) {
          CourseConformance(cs.items[i]);
        }
      }
      if os.JArray? {
        forall i | 0 <= i < |os.items| ensures Conforms(os.items[i], Opportunity) <==> IsOpportunity(os.items[i]) {
          OpportunityConformance(os.items[i]);
        }
      }
      var p := Learning.properties;
      assert p[0].0 == "courses" && p[1].0 == "opportunities";
      if IsLearningReply(v) {
        forall i | 0 <= i < |p| && p[i].0 in v.fields ensures Conforms(v.fields[p[i].0], p[i].1) {
          assert i == 0 || i == 1;
        }
      }
    }
  }

  /** Both lists are required at the top level. */
  lemma ListsRequired(v: Json)
    requires Conforms(v, Learning)
    ensures "courses" in v.fields && "opportunities" in v.fields
  {
  }
}
