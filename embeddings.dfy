/**
 * Embedding requests and responses (pkg/types/embedding.go).  Go's `interface{}`
 * payloads become datatypes with one constructor per case the code distinguishes.
 * Vector elements are stored and copied, never computed with.
 */
module Embeddings {
  import opened Wrappers
  import opened Metadata

  type Float = real

  /** An element of a Go `[]interface{}`: a float64, a string, or a value of another type. */
  datatype Dyn = DFloat(f: Float) | DString(s: string) | DOther

  /**
   * EmbeddingRequest.Input: a string, a non-nil []string, a nil []string (a typed nil, which
   * Go's type switch still files under []string), a []interface{}, or anything else (an
   * untyped nil included).
   */
  datatype Input =
    | InputString(s: string)
    | InputStrings(strs: seq<string>)
    | NilStrings
    | InputList(items: seq<Dyn>)
    | InputOther

  /**
   * Embedding.Embedding: a non-nil []float64, a nil []float64 (a typed nil), a []interface{},
   * a (base64) string, or anything else (an untyped nil included).
   */
  datatype Vector =
    | Floats(v: seq<Float>)
    | NilFloats
    | Items(items: seq<Dyn>)
    | Base64(s: string)
    | OtherVector

  datatype Embedding = Embedding(objectType: string, index: int, embedding: Vector, dimensions: int)

  datatype EmbeddingResponse = EmbeddingResponse(
    objectType: string,
    data: seq<Embedding>,
    model: string,
    usage: Option<UsageCounts>)

  // ----- request input -----

  /** GetInputAsString: the input when it is a string, "" otherwise. */
  function GetInputAsString(input: Input): (s: string)
    ensures input.InputString? ==> s == input.s
    ensures !input.InputString? ==> s == ""
  {
    if input.InputString? then input.s else ""
  }

  /** The string elements of a list, in order. */
  function StringsOf(items: seq<Dyn>): seq<string>
    decreases |items|
  {
    if items == [] then []
    else
      var last := items[|items| - 1];
      StringsOf(items[..|items| - 1]) + (if last.DString? then [last.s] else [])
  }

  /** What GetInputAsStrings returns; None is Go's nil, which a nil []string is returned as. */
  function InputAsStrings(input: Input): Option<seq<string>> {
    match input
    case InputString(s) => Some([s])
    case InputStrings(strs) => Some(strs)
    case NilStrings => None
    case InputList(items) => Some(StringsOf(items))
    case InputOther => None
  }

  /** GetInputAsStrings, computed as the source does it: a loop appending the string elements. */
  method GetInputAsStrings(input: Input) returns (r: Option<seq<string>>)
    ensures r == InputAsStrings(input)
  {
    match input {
      case InputString(s) => r := Some([s]);
      case InputStrings(strs) => r := Some(strs);
      case NilStrings => r := None;
      case InputList(items) =>
        var result := [];
        var i := 0;
        while i < |items|
          invariant 0 <= i <= |items|
          invariant result == StringsOf(items[..i])
        {
          assert items[..i + 1][..i] == items[..i];
          if items[i].DString? {
            result := result + [items[i].s];
          }
          i := i + 1;
        }
        assert items[..i] == items;
        r := Some(result);
      case InputOther => r := None;
    }
  }

  /** Keeping the string elements distributes over concatenation, so their order is kept. */
  lemma {:induction false} StringsOfAppend(a: seq<Dyn>, b: seq<Dyn>)
    ensures StringsOf(a + b) == StringsOf(a) + StringsOf(b)
    decreases |b|
  {
    if b != [] {
      var init := b[..|b| - 1];
      assert (a + b)[..|a + b| - 1] == a + init;
      assert (a + b)[|a + b| - 1] == b[|b| - 1];
      StringsOfAppend(a, init);
    } else {
      assert a + b == a;
    }
  }

  /** The result is no longer than the list, and holds exactly the list's strings. */
  lemma {:induction false} StringsOfContents(items: seq<Dyn>)
    ensures |StringsOf(items)| <= |items|
    ensures forall s :: s in StringsOf(items) <==> DString(s) in items
    decreases |items|
  {
    if items != [] {
      var init := items[..|items| - 1];
      StringsOfContents(init);
      assert items == init + [items[|items| - 1]];
    }
  }

  /** A list of nothing but strings is converted element for element. */
  lemma {:induction false} StringsOfAllStrings(items: seq<Dyn>)
    requires forall i :: 0 <= i < |items| ==> items[i].DString?
    ensures |StringsOf(items)| == |items|
    ensures forall i :: 0 <= i < |items| ==> StringsOf(items)[i] == items[i].s
    decreases |items|
  {
    if items != [] {
      StringsOfAllStrings(items[..|items| - 1]);
    }
  }

  /** The cases of GetInputAsStrings that need no list traversal. */
  lemma InputAsStringsCases(input: Input)
    ensures input.InputString? ==> InputAsStrings(input) == Some([input.s])
    ensures input.InputStrings? ==> InputAsStrings(input) == Some(input.strs)
    ensures input.InputOther? || input.NilStrings? <==> InputAsStrings(input).None?
    ensures GetInputAsString(input) != "" ==> input.InputString?
  {
  }

  // ----- vectors -----

  /** A []interface{} slot as float64: its float, or zero when it holds anything else. */
  function ToFloat(d: Dyn): Float {
    if d.DFloat? then d.f else 0.0
  }

  /** What AsFloatVector returns; None is Go's nil, which a nil []float64 is returned as. */
  function FloatForm(v: Vector): (r: Option<seq<Float>>)
    ensures v.Floats? ==> r == Some(v.v)
    ensures v.Items? ==> r.Some? && |r.value| == |v.items|
    ensures v.Items? ==> forall i :: 0 <= i < |v.items| ==> r.value[i] == ToFloat(v.items[i])
    ensures !v.Floats? && !v.Items? ==> r.None?
  {
    match v
    case Floats(fs) => Some(fs)
    case NilFloats => None
    case Items(items) => Some(seq(|items|, i requires 0 <= i < |items| => ToFloat(items[i])))
    case _ => None
  }

  /** AsFloatVector, computed as the source does it: a zeroed slice filled slot by slot. */
  method AsFloatVector(e: Embedding) returns (r: Option<seq<Float>>)
    ensures r == FloatForm(e.embedding)
  {
    match e.embedding {
      case Floats(fs) => r := Some(fs);
      case NilFloats => r := None;
      case Items(items) =>
        var result := new Float[|items|](_ => 0.0);
        var i := 0;
        while i < |items|
          invariant 0 <= i <= |items|
          invariant forall k :: 0 <= k < i ==> result[k] == ToFloat(items[k])
          invariant forall k :: i <= k < |items| ==> result[k] == 0.0
        {
          if items[i].DFloat? {
            result[i] := items[i].f;
          }
          i := i + 1;
        }
        assert result[..] == FloatForm(e.embedding).value;
        r := Some(result[..]);
      case _ => r := None;
    }
  }

  /** AsBase64: the string when the embedding is one, "" otherwise. */
  function AsBase64(e: Embedding): (s: string)
    ensures e.embedding.Base64? ==> s == e.embedding.s
    ensures !e.embedding.Base64? ==> s == ""
  {
    if e.embedding.Base64? then e.embedding.s else ""
  }

  /** GetFirstEmbedding: nil exactly when there is no data, else the first element. */
  function GetFirstEmbedding(r: EmbeddingResponse): (e: Option<Embedding>)
    ensures e.None? <==> |r.data| == 0
    ensures e.Some? ==> e.value == r.data[0]
  {
    if |r.data| > 0 then Some(r.data[0]) else None
  }

  /** GetFirstVector: the first embedding's float form, nil without data. */
  method GetFirstVector(r: EmbeddingResponse) returns (v: Option<seq<Float>>)
    ensures |r.data| == 0 ==> v.None?
    ensures |r.data| > 0 ==> v == FloatForm(r.data[0].embedding)
  {
    var emb := GetFirstEmbedding(r);
    if emb.Some? {
      v := AsFloatVector(emb.value);
    } else {
      v := None;
    }
  }

  /** The float forms of the embeddings that have one, in order. */
  function AllVectors(data: seq<Embedding>): seq<seq<Float>>
    decreases |data|
  {
    if data == [] then []
    else
      var f := FloatForm(data[|data| - 1].embedding);
      AllVectors(data[..|data| - 1]) + (if f.Some? then [f.value] else [])
  }

  /** GetAllVectors, computed as the source does it: a loop appending every non-nil float form. */
  method GetAllVectors(r: EmbeddingResponse) returns (vectors: seq<seq<Float>>)
    ensures vectors == AllVectors(r.data)
  {
    vectors := [];
    var i := 0;
    while i < |r.data|
      invariant 0 <= i <= |r.data|
      invariant vectors == AllVectors(r.data[..i])
    {
      assert r.data[..i + 1][..i] == r.data[..i];
      var vec := AsFloatVector(r.data[i]);
      if vec.Some? {
        vectors := vectors + [vec.value];
      }
      i := i + 1;
    }
    assert r.data[..i] == r.data;
  }

  /** Filtering by float form distributes over concatenation, so the order of Data is kept. */
  lemma {:induction false} AllVectorsAppend(a: seq<Embedding>, b: seq<Embedding>)
    ensures AllVectors(a + b) == AllVectors(a) + AllVectors(b)
    decreases |b|
  {
    if b != [] {
      var init := b[..|b| - 1];
      assert (a + b)[..|a + b| - 1] == a + init;
      assert (a + b)[|a + b| - 1] == b[|b| - 1];
      AllVectorsAppend(a, init);
    } else {
      assert a + b == a;
    }
  }

  /** At most one vector per embedding, and every vector is some embedding's float form. */
  lemma {:induction false} AllVectorsBounded(data: seq<Embedding>)
    ensures |AllVectors(data)| <= |data|
    ensures forall v :: v in AllVectors(data) ==>
              exists i :: 0 <= i < |data| && FloatForm(data[i].embedding) == Some(v)
    decreases |data|
  {
    if data != [] {
      var init := data[..|data| - 1];
      AllVectorsBounded(init);
      forall v | v in AllVectors(data)
        ensures exists i :: 0 <= i < |data| && FloatForm(data[i].embedding) == Some(v)
      {
        if v in AllVectors(init) {
          var i :| 0 <= i < |init| && FloatForm(init[i].embedding) == Some(v);
          assert data[i] == init[i];
        } else {
          assert FloatForm(data[|data| - 1].embedding) == Some(v);
        }
      }
    }
  }

  /** When every embedding has a float form, none is dropped. */
  lemma {:induction false} AllVectorsKeepsFloatData(data: seq<Embedding>)
    requires forall i :: 0 <= i < |data| ==> FloatForm(data[i].embedding).Some?
    ensures |AllVectors(data)| == |data|
    ensures forall i :: 0 <= i < |data| ==> AllVectors(data)[i] == FloatForm(data[i].embedding).value
    decreases |data|
  {
    if data != [] {
      AllVectorsKeepsFloatData(data[..|data| - 1]);
    }
  }

  /**
   * A nil []float64 has no float form and is dropped by GetAllVectors, while an empty non-nil
   * one is kept, as Go's `vec != nil` test distinguishes them.
   */
  lemma NilVectorsAreDropped(a: Embedding, b: Embedding)
    requires a.embedding == NilFloats && b.embedding == Floats([])
    ensures FloatForm(a.embedding).None?
    ensures AllVectors([a]) == [] && AllVectors([a, b]) == [[]]
  {
    assert [a, b][..1] == [a];
    assert [a][..0] == [];
  }

  /** An embedding request; its fluent setters update it in place and return the receiver. */
  class EmbeddingRequest {
    var model: string
    var input: Input
    var encodingFormat: string
    var dimensions: int
    var user: string

    /** NewEmbeddingRequest. */
    constructor (model: string, input: Input)
      ensures this.model == model && this.input == input
      ensures encodingFormat == "" && dimensions == 0 && user == ""
    {
      this.model := model;
      this.input := input;
      encodingFormat := "";
      dimensions := 0;
      user := "";
    }

    /** NewEmbeddingRequestFromString. */
    constructor FromString(model: string, input: string)
      ensures this.model == model && this.input == InputString(input)
      ensures encodingFormat == "" && dimensions == 0 && user == ""
    {
      this.model := model;
      this.input := InputString(input);
      encodingFormat := "";
      dimensions := 0;
      user := "";
    }

    /** NewEmbeddingRequestFromStrings: a nil slice is stored as a typed nil `[]string`. */
    constructor FromStrings(model: string, inputs: Option<seq<string>>)
      ensures this.model == model
      ensures inputs.Some? ==> this.input == InputStrings(inputs.value)
      ensures inputs.None? ==> this.input == NilStrings
      ensures InputAsStrings(this.input) == inputs
      ensures encodingFormat == "" && dimensions == 0 && user == ""
    {
      this.model := model;
      this.input := if inputs.Some? then InputStrings(inputs.value) else NilStrings;
      encodingFormat := "";
      dimensions := 0;
      user := "";
    }

    /** WithEncodingFormat: only the encoding format changes. */
    method WithEncodingFormat(format: string) returns (r: EmbeddingRequest)
      modifies this`encodingFormat
      ensures r == this && encodingFormat == format
    {
      encodingFormat := format;
      r := this;
    }

    /** WithDimensions: only the dimensions change. */
    method WithDimensions(dimensions: int) returns (r: EmbeddingRequest)
      modifies this`dimensions
      ensures r == this && this.dimensions == dimensions
    {
      this.dimensions := dimensions;
      r := this;
    }

    /** WithUser: only the user changes. */
    method WithUser(user: string) returns (r: EmbeddingRequest)
      modifies this`user
      ensures r == this && this.user == user
    {
      this.user := user;
      r := this;
    }
  }
}
