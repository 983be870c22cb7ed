/** The settings form of djangoerp/pluggets/forms.py: the fields
    `CustomizePluggetSettingsForm` builds from the "context_" keys of a
    plugget's initial context. */
module PluggetForms {
  import opened Wrappers
  import opened Text

  const ContextPrefix: string := "context_"

  /** A generated field. A choice field lists the instances of the model
      (app label, model name) and is labelled with the model class's name,
      and it is required iff the key is marked with '!'. A char field is
      always required, Django's default, whether the key is marked or not. */
  datatype Field =
    | ChoiceField(required: bool, initial: string, modelKey: (string, string), caption: string)
    | CharField(required: bool, maxLength: nat, initial: string, caption: string)

  /** The `max_length` of a generated char field. */
  const SettingMaxLength: nat := 200

  /** The errors the form's construction lets through: "context_" alone has
      no first character, and a ".pk" key may name no content type. */
  datatype FormError = IndexError | DoesNotExist

  /** The models known to the content types: (app label, model name) to the
      model class's name. */
  type Models = map<(string, string), string>

  /** The field one initial item gives: none for a key outside the
      "context_" namespace. */
  function SettingField(key: string, initial: string, models: Models): (r: Result<Option<Field>, FormError>)
    ensures r == Ok(None) <==> !StartsWith(key, ContextPrefix)
    ensures r == Err(IndexError) <==> key == ContextPrefix
    ensures r.Ok? && r.value.Some? && r.value.value.CharField? ==>
              r.value.value == CharField(true, SettingMaxLength, initial, Capitalize(Replace(key, ContextPrefix, "")))
    ensures r.Ok? && r.value.Some? && r.value.value.ChoiceField? ==>
              r.value.value.required == (key[|ContextPrefix|] == '!') && r.value.value.initial == initial
              && r.value.value.modelKey in models && r.value.value.caption == models[r.value.value.modelKey]
    ensures StartsWith(key, ContextPrefix) && |key| > |ContextPrefix| ==>
              var name := SettingName(key[|ContextPrefix|..]);
              && (EndsWith(name, ".pk") ==>
                    var (appLabel, _, modelName) := RPartition(name[..|name| - 3], ".");
                    && (r == Err(DoesNotExist) <==> (appLabel, modelName) !in models)
                    && (r.Ok? ==> r.value.Some? && r.value.value.ChoiceField? && r.value.value.modelKey == (appLabel, modelName)))
              && (!EndsWith(name, ".pk") ==> r.Ok? && r.value.Some? && r.value.value.CharField?)
  {
    if !StartsWith(key, ContextPrefix) then Ok(None)
    else
      var cleaned := key[|ContextPrefix|..];
      if cleaned == "" then
        assert key == key[..|ContextPrefix|] + cleaned;
        Err(IndexError)
      else
        var required := cleaned[0] == '!';
        var name := SettingName(cleaned);
        if EndsWith(name, ".pk") then
          var (appLabel, _, modelName) := RPartition(name[..|name| - 3], ".");
          if (appLabel, modelName) in models then
            Ok(Some(ChoiceField(required, initial, (appLabel, modelName), models[(appLabel, modelName)])))
          else Err(DoesNotExist)
        else Ok(Some(CharField(true, SettingMaxLength, initial, Capitalize(Replace(key, ContextPrefix, "")))))
  }

  /** The setting name once a leading '!' is dropped. */
  function SettingName(cleaned: string): (name: string)
    requires cleaned != ""
    ensures cleaned[0] == '!' ==> "!" + name == cleaned
    ensures cleaned[0] != '!' ==> name == cleaned
  {
    if cleaned[0] == '!' then cleaned[1..] else cleaned
  }

  /** The key of a required or optional model setting, "context_[!]<app
      label>.<model>.pk", gives a choice field for that model. */
  lemma ModelSettingKey(required: bool, appLabel: string, modelName: string, initial: string, models: Models)
    requires '.' !in modelName && (appLabel, modelName) in models && !StartsWith(appLabel, "!")
    ensures var key := ContextPrefix + (if required then "!" else "") + appLabel + "." + modelName + ".pk";
            SettingField(key, initial, models)
              == Ok(Some(ChoiceField(required, initial, (appLabel, modelName), models[(appLabel, modelName)])))
  {
    var mark := if required then "!" else "";
    var name := appLabel + "." + modelName + ".pk";
    var key := ContextPrefix + mark + name;
    assert key == ContextPrefix + mark + appLabel + "." + modelName + ".pk";
    assert key[..|ContextPrefix|] == ContextPrefix;
    var cleaned := key[|ContextPrefix|..];
    assert cleaned == mark + name;
    if required {
      assert cleaned[0] == '!' && cleaned[1..] == name;
    } else {
      assert cleaned == name;
      assert appLabel != "" ==> cleaned[0] == appLabel[0];
    }
    assert name[|name| - 3..] == ".pk";
    assert name[..|name| - 3] == appLabel + "." + modelName;
    RPartitionAt(appLabel, ".", modelName);
  }

  /** Any other setting "context_<name>" gives a char field labelled with
      the capitalised name. */
  lemma PlainSettingKey(name: string, initial: string, models: Models)
    requires name != "" && !Contains(name, ContextPrefix) && !EndsWith(name, ".pk") && name[0] != '!'
    ensures SettingField(ContextPrefix + name, initial, models) == Ok(Some(CharField(true, SettingMaxLength, initial, Capitalize(name))))
  {
    var key := ContextPrefix + name;
    assert key[..|ContextPrefix|] == ContextPrefix;
    assert key[|ContextPrefix|..] == name;
    ReplaceLeading(ContextPrefix, name, "");
    ReplaceAbsent(name, ContextPrefix, "");
    assert "" + name == name;
  }

  /** A '!'-marked setting "context_!<name>" that is not a model key still
      gives a char field; the mark is not dropped from its label, and the
      field is required either way. */
  lemma MarkedPlainSettingKey(name: string, initial: string, models: Models)
    requires name != "" && !Contains(name, ContextPrefix) && !EndsWith(name, ".pk")
    ensures SettingField(ContextPrefix + "!" + name, initial, models) == Ok(Some(CharField(true, SettingMaxLength, initial, Capitalize("!" + name))))
  {
    var key := ContextPrefix + "!" + name;
    assert key == ContextPrefix + ("!" + name);
    assert key[..|ContextPrefix|] == ContextPrefix;
    assert key[|ContextPrefix|..] == "!" + name;
    assert ("!" + name)[1..] == name;
    NotContainsConcat("!", name, ContextPrefix);
    ReplaceLeading(ContextPrefix, "!" + name, "");
    ReplaceAbsent("!" + name, ContextPrefix, "");
    assert "" + ("!" + name) == "!" + name;
  }

  /** The fields after adding those of `items` in order; the first error
      stops the construction. */
  function AddSettingFields(fields: map<string, Field>, items: seq<(string, string)>, models: Models): Result<map<string, Field>, FormError>
    decreases |items|
  {
    if items == [] then Ok(fields)
    else
      match SettingField(items[0].0, items[0].1, models)
      case Err(e) => Err(e)
      case Ok(None) => AddSettingFields(fields, items[1..], models)
      case Ok(Some(f)) => AddSettingFields(fields[items[0].0 := f], items[1..], models)
  }

  /** Every generated field is stored under its own initial key, so the
      fields kept are the ones given plus fields under "context_" keys. */
  lemma {:induction false} AddedUnderContextKeys(fields: map<string, Field>, items: seq<(string, string)>, models: Models)
    requires AddSettingFields(fields, items, models).Ok?
    ensures var after := AddSettingFields(fields, items, models).value;
            forall k :: k in after ==> k in fields || (StartsWith(k, ContextPrefix) && exists i :: 0 <= i < |items| && items[i].0 == k)
    ensures forall i :: 0 <= i < |items| && StartsWith(items[i].0, ContextPrefix) ==> items[i].0 in AddSettingFields(fields, items, models).value
    decreases |items|
  {
    if items != [] {
      var rest := items[1..];
      assert forall i :: 0 <= i < |rest| ==> rest[i] == items[i + 1];
      match SettingField(items[0].0, items[0].1, models)
      case Ok(None) =>
        AddedUnderContextKeys(fields, rest, models);
      case Ok(Some(f)) =>
        AddedUnderContextKeys(fields[items[0].0 := f], rest, models);
        KeptAfter(fields[items[0].0 := f], rest, models, items[0].0);
    }
  }

  /** A key present before stays present. */
  lemma {:induction false} KeptAfter(fields: map<string, Field>, items: seq<(string, string)>, models: Models, k: string)
    requires AddSettingFields(fields, items, models).Ok? && k in fields
    ensures k in AddSettingFields(fields, items, models).value
    decreases |items|
  {
    if items != [] {
      match SettingField(items[0].0, items[0].1, models)
      case Ok(None) =>
        KeptAfter(fields, items[1..], models, k);
      case Ok(Some(f)) =>
        KeptAfter(fields[items[0].0 := f], items[1..], models, k);
    }
  }

  /** The form, with its `fields`. */
  class SettingsForm {
    var fields: map<string, Field>

    /** The fixed "title" field. */
    constructor ()
      ensures fields == map["title" := CharField(true, 100, "", "Title")]
    {
      fields := map["title" := CharField(true, 100, "", "Title")];
    }

    /** The loop of `__init__` over `initial.items()`. */
    method AddFields(initial: seq<(string, string)>, models: Models) returns (r: Outcome<FormError>)
      modifies this
      ensures var spec := AddSettingFields(old(fields), initial, models);
              (r.Pass? <==> spec.Ok?) && (r.Fail? ==> r.error == spec.error) && (spec.Ok? ==> fields == spec.value)
    {
      var i := 0;
      while i < |initial|
        invariant 0 <= i <= |initial|
        invariant AddSettingFields(old(fields), initial, models) == AddSettingFields(fields, initial[i..], models)
      {
        assert initial[i..][1..] == initial[i + 1..];
        var (k, v) := initial[i];
        var f := SettingField(k, v, models);
        if f.Err? {
          return Fail(f.error);
        }
        if f.value.Some? {
          fields := fields[k := f.value.value];
        }
        i := i + 1;
      }
      r := Pass;
    }
  }
}

/** The `is_plugget_editable` view decorator of
    djangoerp/pluggets/decorators.py. */
module PluggetDecorators {
  import opened Wrappers

  /** What `get_plugget_func` returns: a plugget with its source uid, or any
      other object, truthy or not. */
  datatype Found = Plugget(source: string) | OtherObject(truthy: bool)

  datatype Response = ViewRan | Redirect(to: string)

  /** The decorator's default `redirect_to`. */
  const DefaultRedirect: string := "/"

  /** `_wrapped_view(request, ...)`: the plugget is looked up when the getter
      is callable; a truthy result that is not a plugget, or a plugget
      whose source is not registered, sends the user to `redirectTo`. */
  function WrappedView<A>(getPlugget: Option<A -> Found>, redirectTo: string, sources: set<string>, args: A): (r: Response)
    ensures getPlugget.None? ==> r == ViewRan
    ensures r.Redirect? ==> r.to == redirectTo
    ensures getPlugget.Some? ==> match getPlugget.value(args)
              case Plugget(source) => r.ViewRan? <==> source in sources
              case OtherObject(truthy) => r.ViewRan? <==> !truthy
  {
    var found := if getPlugget.Some? then Some(getPlugget.value(args)) else None;
    var truthy := found.Some? && (found.value.Plugget? || found.value.truthy);
    if truthy && (!found.value.Plugget? || found.value.source !in sources) then Redirect(redirectTo)
    else ViewRan
  }

  /** Registering a source never locks anyone out: a view the decorator
      lets run keeps running when more sources are registered. */
  lemma MoreSourcesMoreEditable<A>(getPlugget: Option<A -> Found>, redirectTo: string, sources: set<string>, more: set<string>, args: A)
    requires sources <= more
    ensures WrappedView(getPlugget, redirectTo, sources, args).ViewRan? ==> WrappedView(getPlugget, redirectTo, more, args).ViewRan?
  {
  }
}
