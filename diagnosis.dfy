/**
 * The two pure helpers of the diagnosis side of the backend: the upload
 * filename check and the choice of diagnostic models recommended after a
 * symptom analysis.
 */
module Diagnosis {
  import opened Text
  import opened Seqs

  // ------------------------------------------------------------------ uploads

  /** `ALLOWED_EXTENSIONS` */
  const AllowedExtensions: set<string> := {"png", "jpg", "jpeg"}

  /** `filename.rsplit('.', 1)[1]`: what follows the last dot. */
  function Extension(filename: string): (ext: string)
    requires '.' in filename
    ensures '.' !in ext
  {
    filename[LastIndex(filename, '.') + 1..]
  }

  /** `allowed_file` */
  predicate AllowedFile(filename: string) {
    '.' in filename && Lower(Extension(filename)) in AllowedExtensions
  }

  /** A name, a dot and a dot-free extension split a filename in exactly one way. */
  lemma SplitAtLastDot(name: string, ext: string)
    requires '.' !in ext
    ensures '.' in name + "." + ext
    ensures Extension(name + "." + ext) == ext
  {
    var f := name + "." + ext;
    assert f[|name|] == '.';
    assert f[|name| + 1..] == ext;
  }

  /**
   * A filename is accepted exactly when it is some name, a dot and an
   * extension without dots that lower-cases to png, jpg or jpeg.
   */
  lemma AllowedFileIff(filename: string)
    ensures AllowedFile(filename) <==>
      exists name, ext :: filename == name + "." + ext && '.' !in ext && Lower(ext) in AllowedExtensions
  {
    if AllowedFile(filename) {
      var i := LastIndex(filename, '.');
      var name, ext := filename[..i], filename[i + 1..];
      assert filename == name + "." + ext;
    }
    if exists name, ext :: filename == name + "." + ext && '.' !in ext && Lower(ext) in AllowedExtensions {
      var name, ext :| filename == name + "." + ext && '.' !in ext && Lower(ext) in AllowedExtensions;
      SplitAtLastDot(name, ext);
    }
  }

  // ------------------------------------------------------------------ recommended models

  /** An entry of `MODELS`; files and class lists belong to inference and are not modelled. */
  datatype ModelInfo = ModelInfo(key: string, displayName: string, description: string)

  /** `MODELS`, in its insertion order. */
  const Models: seq<ModelInfo> := [
    ModelInfo("breast_cancer", "Breast Cancer Detection",
              "Detects potential breast cancer from histopathology images"),
    ModelInfo("covid19", "COVID-19 Analysis",
              "Analyzes chest X-rays for COVID-19 and other lung conditions"),
    ModelInfo("malaria", "Malaria Detection",
              "Identifies malaria parasites in blood smear images"),
    ModelInfo("pneumonia", "Pneumonia Detection",
              "Detects pneumonia in chest X-ray images"),
    ModelInfo("skin_cancer", "Skin Cancer Classification",
              "Classifies skin lesions as benign or malignant"),
    ModelInfo("tuberculosis", "Tuberculosis Screening",
              "Screens chest X-rays for signs of tuberculosis")
  ]

  /** `{'key', 'name', 'description'}` */
  datatype Recommendation = Recommendation(key: string, name: string, description: string)

  function AsRecommendation(m: ModelInfo): Recommendation {
    Recommendation(m.key, m.displayName, m.description)
  }

  /** The analysis mentions the model's display name. */
  function MentionedIn(text: string): ModelInfo -> bool {
    (m: ModelInfo) => Contains(text, m.displayName)
  }

  /** The mentioned models, in `MODELS` order; the first three models when none is mentioned. */
  function RecommendedModels(text: string): seq<Recommendation> {
    RecommendedFrom(Models, text)
  }

  /** The same choice over any list of at least three models. */
  function RecommendedFrom(models: seq<ModelInfo>, text: string): seq<Recommendation>
    requires 3 <= |models|
  {
    var named := MapSeq(Filter(models, MentionedIn(text)), AsRecommendation);
    if named == [] then MapSeq(models[..3], AsRecommendation) else named
  }

  /** `determine_recommended_models` */
  method DetermineRecommendedModels(analysisText: string) returns (recommended: seq<Recommendation>)
    ensures recommended == RecommendedModels(analysisText)
  {
    recommended := MentionedModels(Models, analysisText);
    if recommended == [] {
      recommended := FirstModels(Models, 3);
    }
  }

  /** The first loop: every model whose display name occurs in the text, in order. */
  method MentionedModels(models: seq<ModelInfo>, text: string) returns (recommended: seq<Recommendation>)
    ensures recommended == MapSeq(Filter(models, MentionedIn(text)), AsRecommendation)
  {
    recommended := [];
    var i := 0;
    while i < |models|
      invariant 0 <= i <= |models|
      invariant recommended == MapSeq(Filter(models[..i], MentionedIn(text)), AsRecommendation)
    {
      var m := models[i];
      assert models[..i + 1] == models[..i] + [m];
      MapFilterSnoc(models[..i], m, MentionedIn(text), AsRecommendation);
      if Contains(text, m.displayName) {
        recommended := recommended + [Recommendation(m.key, m.displayName, m.description)];
      }
      i := i + 1;
    }
    assert models[..i] == models;
  }

  /** The fallback loop: a counter admits the first `n` models. */
  method FirstModels(models: seq<ModelInfo>, n: nat) returns (recommended: seq<Recommendation>)
    requires n <= |models|
    ensures recommended == MapSeq(models[..n], AsRecommendation)
  {
    recommended := [];
    var count := 0;
    var i := 0;
    while i < |models|
      invariant 0 <= i <= |models|
      invariant count == if i < n then i else n
      invariant recommended == MapSeq(models[..count], AsRecommendation)
    {
      var m := models[i];
      if count < n {
        assert models[..count + 1] == models[..count] + [m];
        MapSeqAppend(models[..count], [m], AsRecommendation);
        recommended := recommended + [Recommendation(m.key, m.displayName, m.description)];
        count := count + 1;
      }
      i := i + 1;
    }
  }

  /**
   * A model is recommended exactly when its name is mentioned, or, when no
   * name is mentioned at all, when it is one of the first three.
   */
  lemma RecommendedMembers(text: string, x: Recommendation)
    ensures x in RecommendedModels(text) <==>
      if exists m :: m in Models && Contains(text, m.displayName) then
        exists m :: m in Models && Contains(text, m.displayName) && x == AsRecommendation(m)
      else
        exists m :: m in Models[..3] && x == AsRecommendation(m)
  {
    RecommendedFromMembers(Models, text, x);
  }

  lemma RecommendedFromMembers(models: seq<ModelInfo>, text: string, x: Recommendation)
    requires 3 <= |models|
    ensures x in RecommendedFrom(models, text) <==>
      if exists m :: m in models && Contains(text, m.displayName) then
        exists m :: m in models && Contains(text, m.displayName) && x == AsRecommendation(m)
      else
        exists m :: m in models[..3] && x == AsRecommendation(m)
  {
    var named := MapSeq(Filter(models, MentionedIn(text)), AsRecommendation);
    MapFilterMembership(models, MentionedIn(text), AsRecommendation, x);
    if exists m :: m in models && Contains(text, m.displayName) {
      var m :| m in models && Contains(text, m.displayName);
      MapFilterMembership(models, MentionedIn(text), AsRecommendation, AsRecommendation(m));
      assert named != [];
    } else {
      if named != [] {
        MapFilterMembership(models, MentionedIn(text), AsRecommendation, named[0]);
        assert false;
      }
      var firstThree := MapSeq(models[..3], AsRecommendation);
      if x in firstThree {
        var i :| 0 <= i < 3 && firstThree[i] == x;
        assert models[..3][i] in models[..3];
      }
    }
  }

  /** Between one and six models are always recommended. */
  lemma RecommendedCount(text: string)
    ensures 1 <= |RecommendedModels(text)| <= |Models|
  {
  }
}
