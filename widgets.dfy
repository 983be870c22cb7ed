/** `JsonPairWidget` of djangoerp/core/forms/widgets.py: a form widget that
    shows a JSON dictionary as rows of key and value inputs and reads the
    rows back into a dictionary. */
module JsonPairWidgets {
  import opened Wrappers
  import opened Text

  /** HTML attributes of an input. */
  type Attrs = map<string, string>

  /** The attributes with their class prefixed by `marker` and a space; a
      missing class counts as "". */
  function WithClass(marker: string, attrs: Attrs): (r: Attrs)
    ensures r.Keys == attrs.Keys + {"class"}
    ensures forall k :: k in attrs && k != "class" ==> r[k] == attrs[k]
    ensures StartsWith(r["class"], marker + " ")
    ensures "class" in attrs ==> r["class"][|marker| + 1..] == attrs["class"]
    ensures "class" !in attrs ==> r["class"] == marker + " "
  {
    var existing := if "class" in attrs then attrs["class"] else "";
    var joined := marker + " " + existing;
    assert joined[|marker| + 1..] == existing;
    attrs["class" := joined]
  }

  /** One rendered row: the key input and the value input of the field
      `fieldName`, with the widget's attributes. */
  datatype PairInput = PairInput(key: string, value: string, fieldName: string, keyAttrs: Attrs, valAttrs: Attrs)

  /** The value to render, once `json.loads` has read it: not JSON at all, a
      JSON object (its items), or some other JSON value. */
  datatype Json = Undecodable | JsonObject(items: seq<(string, string)>) | OtherJson

  /** `data.items()` on a decoded value that is not a dictionary. */
  datatype RenderError = AttributeError

  class JsonPairWidget {
    var keyAttrs: Attrs
    var valAttrs: Attrs

    /** `JsonPairWidget(key_attrs=..., val_attrs=...)`: each attribute
        dictionary gets the class "json-key <class>" or "json-val <class>". */
    constructor (keyAttrs: Option<Attrs>, valAttrs: Option<Attrs>)
      ensures this.keyAttrs == WithClass("json-key", if keyAttrs.Some? then keyAttrs.value else map[])
      ensures this.valAttrs == WithClass("json-val", if valAttrs.Some? then valAttrs.value else map[])
    {
      var k: Attrs := map[];
      var v: Attrs := map[];
      if keyAttrs.Some? {
        k := keyAttrs.value;
      }
      if valAttrs.Some? {
        v := valAttrs.value;
      }
      ghost var givenKey, givenVal := k, v;
      if "class" !in k {
        k := k["class" := ""];
      }
      if "class" !in v {
        v := v["class" := ""];
      }
      k := k["class" := "json-key" + " " + k["class"]];
      v := v["class" := "json-val" + " " + v["class"]];
      assert k == WithClass("json-key", givenKey);
      assert v == WithClass("json-val", givenVal);
      this.keyAttrs := k;
      this.valAttrs := v;
    }

    /** `render(name, value)`: one row per item of the decoded dictionary, in
        order, then one empty row; a value that is not JSON renders the empty
        row only. */
    method Render(name: string, value: Json) returns (r: Result<seq<PairInput>, RenderError>)
      ensures value.OtherJson? <==> r.Err?
      ensures value.Undecodable? ==> r == Ok([PairInput("", "", name, keyAttrs, valAttrs)])
      ensures value.JsonObject? ==> r.Ok? && |r.value| == |value.items| + 1
      ensures value.JsonObject? ==> forall i :: 0 <= i < |value.items| ==>
                r.value[i] == PairInput(value.items[i].0, value.items[i].1, name, keyAttrs, valAttrs)
      ensures r.Ok? ==> r.value[|r.value| - 1] == PairInput("", "", name, keyAttrs, valAttrs)
    {
      var items: seq<(string, string)> := [];
      match value {
        case Undecodable =>
        case OtherJson =>
          return Err(AttributeError);
        case JsonObject(decoded) =>
          items := decoded;
      }
      var output: seq<PairInput> := [];
      var i := 0;
      while i < |items|
        invariant 0 <= i <= |items|
        invariant |output| == i
        invariant forall j :: 0 <= j < i ==> output[j] == PairInput(items[j].0, items[j].1, name, keyAttrs, valAttrs)
      {
        output := output + [PairInput(items[i].0, items[i].1, name, keyAttrs, valAttrs)];
        i := i + 1;
      }
      output := output + [PairInput("", "", name, keyAttrs, valAttrs)];
      assert value.Undecodable? ==> items == [] && output == [PairInput("", "", name, keyAttrs, valAttrs)];
      r := Ok(output);
    }
  }

  /** The dictionary the first `n` (key, value) pairs build: empty keys are
      skipped and a later pair overrides an earlier one with the same key. */
  function Pairs(keys: seq<string>, values: seq<string>, n: nat): map<string, string>
    requires n <= |keys| && n <= |values|
  {
    if n == 0 then map[]
    else
      var before := Pairs(keys, values, n - 1);
      if |keys[n - 1]| > 0 then before[keys[n - 1] := values[n - 1]] else before
  }

  /** A key is in the dictionary iff it is non-empty and among the first `n`
      keys. */
  lemma {:induction false} PairsDomain(keys: seq<string>, values: seq<string>, n: nat, k: string)
    requires n <= |keys| && n <= |values|
    ensures k in Pairs(keys, values, n) <==> k != "" && k in keys[..n]
  {
    if n > 0 {
      PairsDomain(keys, values, n - 1, k);
      assert keys[..n] == keys[..n - 1] + [keys[n - 1]];
    }
  }

  /** A key takes the value paired with its last occurrence. */
  lemma {:induction false} PairsLastWins(keys: seq<string>, values: seq<string>, n: nat, i: nat)
    requires n <= |keys| && n <= |values| && i < n && keys[i] != ""
    requires forall j :: i < j < n ==> keys[j] != keys[i]
    ensures keys[i] in Pairs(keys, values, n) && Pairs(keys, values, n)[keys[i]] == values[i]
  {
    if i < n - 1 {
      PairsLastWins(keys, values, n - 1, i);
    }
  }

  /** The name of the key inputs and of the value inputs of field `name`. */
  function KeyField(name: string): string {
    "json_key[" + name + "]"
  }

  function ValueField(name: string): string {
    "json_value[" + name + "]"
  }

  /** What `value_from_datadict` returns: "" or `json.dumps` of a
      dictionary. */
  datatype JsonText = Blank | Dumps(dict: map<string, string>)

  /** `value_from_datadict(data, files, name)`: `data` maps each submitted
      name to its list of values. Only when both lists are present are the
      keys and values paired by position, up to the shorter list. */
  function ValueFromDatadict(data: map<string, seq<string>>, name: string): (text: JsonText)
    ensures text.Dumps? <==> KeyField(name) in data && ValueField(name) in data
  {
    if KeyField(name) in data && ValueField(name) in data then
      var keys, values := data[KeyField(name)], data[ValueField(name)];
      Dumps(Pairs(keys, values, if |keys| < |values| then |keys| else |values|))
    else Blank
  }

  /** The loop of `value_from_datadict`. */
  method CollectPairs(data: map<string, seq<string>>, name: string) returns (text: JsonText)
    ensures text == ValueFromDatadict(data, name)
  {
    if !(KeyField(name) in data && ValueField(name) in data) {
      return Blank;
    }
    var keys := data[KeyField(name)];
    var values := data[ValueField(name)];
    var n := if |keys| < |values| then |keys| else |values|;
    var dict: map<string, string> := map[];
    var i := 0;
    while i < n
      invariant 0 <= i <= n
      invariant dict == Pairs(keys, values, i)
    {
      if |keys[i]| > 0 {
        dict := dict[keys[i] := values[i]];
      }
      i := i + 1;
    }
    text := Dumps(dict);
  }

  /** Rendering a dictionary and submitting its rows unchanged gives the
      dictionary back: the rows, and the trailing empty row, are posted in
      order, and the empty row is dropped. */
  lemma RenderThenSubmit(items: seq<(string, string)>, name: string, k: string)
    requires forall i, j :: 0 <= i < j < |items| ==> items[i].0 != items[j].0
    requires forall i :: 0 <= i < |items| ==> items[i].0 != ""
    ensures var keys := seq(|items|, i requires 0 <= i < |items| => items[i].0) + [""];
            var values := seq(|items|, i requires 0 <= i < |items| => items[i].1) + [""];
            var text := ValueFromDatadict(map[KeyField(name) := keys, ValueField(name) := values], name);
            text.Dumps?
            && (k in text.dict <==> exists i :: 0 <= i < |items| && items[i].0 == k)
            && forall i :: 0 <= i < |items| ==> items[i].0 in text.dict && text.dict[items[i].0] == items[i].1
  {
    var keys := seq(|items|, i requires 0 <= i < |items| => items[i].0) + [""];
    var values := seq(|items|, i requires 0 <= i < |items| => items[i].1) + [""];
    assert KeyField(name) != ValueField(name) by {
      assert KeyField(name)[5] == 'k' && ValueField(name)[5] == 'v';
    }
    var n := |keys|;
    PairsDomain(keys, values, n, k);
    if k != "" && k in keys[..n] {
      var j :| 0 <= j < n && keys[..n][j] == k;
      assert j < |items| && items[j].0 == k;
    }
    forall i | 0 <= i < |items|
      ensures items[i].0 in Pairs(keys, values, n) && Pairs(keys, values, n)[items[i].0] == items[i].1
    {
      PairsLastWins(keys, values, n, i);
    }
  }
}
