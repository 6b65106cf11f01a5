/** The part of ozzo-validation's `ValidateStruct` that the models rely on:
    every field carries one `Required` rule with a custom message; the fields
    are checked in order and every failing field is recorded in a
    `validation.Errors` map under the field's JSON name. */
module Validation {
  import opened Common

  /** One `validation.Field(&x.F, validation.Required.Error(message))`:
      `tag` is the name of F in its `json` struct tag and `present` says
      whether `Required` accepts the field's current value. */
  datatype FieldRule = FieldRule(tag: string, present: bool, message: string)

  /** Some rule with this tag rejects its field. */
  predicate Fails(rules: seq<FieldRule>, tag: string)
  {
    exists i | 0 <= i < |rules| :: !rules[i].present && rules[i].tag == tag
  }

  /** No rule after position i has the same tag as rule i. */
  predicate LastWithTag(rules: seq<FieldRule>, i: int)
    requires 0 <= i < |rules|
  {
    forall j | i < j < |rules| :: rules[j].tag != rules[i].tag
  }

  /** No two rules share a tag, as in a struct whose fields have distinct
      JSON names. */
  predicate TagsDistinct(rules: seq<FieldRule>)
  {
    forall i, j | 0 <= i < j < |rules| :: rules[i].tag != rules[j].tag
  }

  /** The validation outcome `r` has an entry for the field named `tag`. */
  predicate Flags(r: Option<Error>, tag: string)
  {
    r.Some? && r.value.FieldErrors? && tag in r.value.fields
  }

  /** The validation outcome `r` reports `message` for the field named `tag`. */
  predicate Reports(r: Option<Error>, tag: string, message: string)
  {
    r.Some? && r.value.FieldErrors? && tag in r.value.fields && r.value.fields[tag] == message
  }

  /** With distinct tags, a rule's tag fails exactly when that rule itself
      rejects its field. */
  lemma DistinctFailsExactly(rules: seq<FieldRule>)
    ensures TagsDistinct(rules) ==> forall i | 0 <= i < |rules| :: Fails(rules, rules[i].tag) <==> !rules[i].present
  {
    if TagsDistinct(rules) {
      forall i | 0 <= i < |rules| && Fails(rules, rules[i].tag) ensures !rules[i].present {
        var j :| 0 <= j < |rules| && !rules[j].present && rules[j].tag == rules[i].tag;
        assert i == j;
      }
    }
  }

  /** The `validation.Errors` map built by visiting the rules in order;
      a later failure under the same tag overwrites an earlier one. */
  function CollectErrors(rules: seq<FieldRule>): (errs: map<string, string>)
    ensures forall tag :: tag in errs <==> Fails(rules, tag)
    ensures forall i | 0 <= i < |rules| && !rules[i].present && LastWithTag(rules, i) ::
              rules[i].tag in errs && errs[rules[i].tag] == rules[i].message
  {
    if |rules| == 0 then map[]
    else
      var init := rules[..|rules| - 1];
      var errs := CollectErrors(init);
      var last := rules[|rules| - 1];
      assert forall tag :: Fails(rules, tag) <==> Fails(init, tag) || (!last.present && last.tag == tag) by {
        forall tag ensures Fails(rules, tag) <==> Fails(init, tag) || (!last.present && last.tag == tag) {
          if Fails(rules, tag) {
            var i :| 0 <= i < |rules| && !rules[i].present && rules[i].tag == tag;
            if i < |init| { assert init[i] == rules[i]; }
          }
          if Fails(init, tag) {
            var i :| 0 <= i < |init| && !init[i].present && init[i].tag == tag;
            assert rules[i] == init[i];
          }
        }
      }
      assert forall i | 0 <= i < |init| && LastWithTag(rules, i) :: LastWithTag(init, i) && init[i] == rules[i];
      if last.present then errs else errs[last.tag := last.message]
  }

  /** `validation.ValidateStruct`: nil when every field passes, otherwise the
      map of failures. */
  function ValidateStruct(rules: seq<FieldRule>): (r: Option<Error>)
    ensures r.None? <==> forall i | 0 <= i < |rules| :: rules[i].present
    ensures r.Some? ==> r.value.FieldErrors?
    ensures r.Some? ==> forall tag :: tag in r.value.fields <==> Fails(rules, tag)
    ensures r.Some? ==> forall i | 0 <= i < |rules| && !rules[i].present && LastWithTag(rules, i) ::
                          rules[i].tag in r.value.fields && r.value.fields[rules[i].tag] == rules[i].message
    ensures TagsDistinct(rules) ==>
              forall i | 0 <= i < |rules| :: Reports(r, rules[i].tag, rules[i].message) <==> !rules[i].present
    ensures TagsDistinct(rules) ==> forall i | 0 <= i < |rules| :: Flags(r, rules[i].tag) <==> !rules[i].present
  {
    var errs := CollectErrors(rules);
    DistinctFailsExactly(rules);
    if errs == map[] then
      assert forall i | 0 <= i < |rules| :: rules[i].present by {
        forall i | 0 <= i < |rules| ensures rules[i].present {
          if !rules[i].present {
            assert Fails(rules, rules[i].tag);
          }
        }
      }
      None
    else
      Some(FieldErrors(errs))
  }
}
