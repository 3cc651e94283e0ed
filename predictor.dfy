/**
 * The air-pollution prediction facade: it holds a regression model (PM2.5
 * level) and a classification model (air-quality category), loads both from
 * model files, assembles the eight environmental readings into the row the
 * models expect, and maps the classifier's code to a label and a sentence.
 *
 * The trained models are opaque: each is a function from a batch of rows to
 * the predictions it returns, or to the exception it raises. Whether a model
 * file exists and whether it unpickles are abstract inputs (`Artifact`).
 */
module Predictor {
  import opened Wrappers
  import opened Rounding

  /** A batch of feature rows: the 2-D array the models are called on. */
  type Matrix = seq<seq<real>>

  /** What one call into a trained model does. */
  datatype Call<+T> = Returned(predictions: seq<T>) | Raised(reason: string)

  type Regressor = Matrix -> Call<real>
  type Classifier = Matrix -> Call<int>

  /** What a model path turns out to hold when it is loaded. */
  datatype Artifact<+M> =
    | Missing                   // no file at that path
    | Unreadable(reason: string) // the file exists but unpickling it raised
    | Stored(model: M)

  /** The exceptions the facade raises or lets through. */
  datatype Error =
    | FileNotFound(path: string)
    | LoadFailed(reason: string)       // unpickling's own exception, re-raised
    | RegressionNotLoaded
    | ClassificationNotLoaded
    | PredictionFailed(reason: string) // the model's own exception, re-raised
    | NoPrediction                     // the model returned no row, so `prediction[0]` raised

  /** The eight named inputs, as echoed back under `features_used`. */
  datatype Reading = Reading(
    temperature: real, humidity: real, pm10: real, no2: real, so2: real, co: real,
    industrialProximity: real, populationDensity: int)
  {
    /** The `features_used` dictionary: the value recorded under `name`. */
    function Get(name: string): Option<real>
    {
      if name == "temperature" then Some(temperature)
      else if name == "humidity" then Some(humidity)
      else if name == "pm10" then Some(pm10)
      else if name == "no2" then Some(no2)
      else if name == "so2" then Some(so2)
      else if name == "co" then Some(co)
      else if name == "industrial_proximity" then Some(industrialProximity)
      else if name == "population_density" then Some(populationDensity as real)
      else None
    }

    /**
     * The `features_used` dictionary read under each of `names` in turn;
     * `None` when some name is not one of its keys.
     */
    function GetAll(names: seq<string>): Option<seq<real>>
    {
      if names == [] then Some([])
      else match (Get(names[0]), GetAll(names[1..]))
        case (Some(v), Some(vs)) => Some([v] + vs)
        case _ => None
    }
  }

  /** The feature names, in the column order the models were trained on. */
  const FeatureNames: seq<string> := [
    "temperature", "humidity", "pm10", "no2", "so2", "co",
    "industrial_proximity", "population_density"]

  /** `predict_air_quality`'s result: the raw code and its label. */
  datatype AirQuality = AirQuality(index: int, name: string)

  /** `predict_both`'s dictionary. */
  datatype PredictionResult = PredictionResult(
    pm25Level: real, airQualityIndex: int, airQualityLabel: string, featuresUsed: Reading)

  /** The four air-quality categories the classifier was trained on. */
  datatype Category = Good | Moderate | Unhealthy | Hazardous
  {
    function Code(): int
    {
      match this
      case Good => 0
      case Moderate => 1
      case Unhealthy => 2
      case Hazardous => 3
    }

    function Name(): string
    {
      match this
      case Good => "Good"
      case Moderate => "Moderate"
      case Unhealthy => "Unhealthy"
      case Hazardous => "Hazardous"
    }
  }

  /** The category a classifier code stands for, if any. */
  function CategoryOfCode(code: int): (c: Option<Category>)
    ensures c.Some? ==> c.value.Code() == code
    ensures c.None? ==> forall k: Category :: k.Code() != code
  {
    if code == 0 then Some(Good)
    else if code == 1 then Some(Moderate)
    else if code == 2 then Some(Unhealthy)
    else if code == 3 then Some(Hazardous)
    else None
  }

  /** `quality_map`: classifier code to label. */
  const QualityMap: map<int, string> := map[0 := "Good", 1 := "Moderate", 2 := "Unhealthy", 3 := "Hazardous"]

  /** The label shown for a code, `quality_map.get(code, "Unknown")`. */
  function QualityLabel(code: int): (quality: string)
    ensures CategoryOfCode(code).Some? ==> quality == CategoryOfCode(code).value.Name()
    ensures CategoryOfCode(code).None? ==> quality == "Unknown"
    ensures quality == "Unknown" <==> !(0 <= code <= 3)
  {
    if code in QualityMap then QualityMap[code] else "Unknown"
  }

  /** The sentence `get_quality_description` gives for a label it does not know. */
  const NoDescription: string := "No description available."

  /** The table of `get_quality_description`. */
  const Descriptions: map<string, string> := map[
    "Good" := "Air quality is satisfactory, and air pollution poses little or no risk.",
    "Moderate" := "Air quality is acceptable. However, sensitive individuals may experience minor issues.",
    "Unhealthy" := "Members of sensitive groups may experience health effects. The general public is less likely to be affected.",
    "Hazardous" := "Health alert: The risk of health effects is increased for everyone."]

  /** The error raised for a model path whose artifact could not be loaded. */
  function LoadError<M>(path: string, artifact: Artifact<M>): Error
    requires !artifact.Stored?
  {
    if artifact.Missing? then FileNotFound(path) else LoadFailed(artifact.reason)
  }

  const DefaultRegressionPath: string := "regression_model.pkl"
  const DefaultClassificationPath: string := "classification_model.pkl"

  class AirPollutionPredictor {
    var regressionModel: Option<Regressor>
    var classificationModel: Option<Classifier>

    /** Both models are in place. */
    predicate Ready()
      reads this
    {
      regressionModel.Some? && classificationModel.Some?
    }

    /** The instance before anything is loaded: both model fields unset. */
    constructor Empty()
      ensures regressionModel.None? && classificationModel.None?
    {
      regressionModel := None;
      classificationModel := None;
    }

    /**
     * Construction: start with both fields unset, then load. A load that
     * raises makes construction raise, so no instance escapes.
     */
    static method Create(regressionPath: string, regressionFile: Artifact<Regressor>,
                         classificationPath: string, classificationFile: Artifact<Classifier>)
      returns (r: Result<AirPollutionPredictor, Error>)
      ensures r.Ok? <==> regressionFile.Stored? && classificationFile.Stored?
      ensures r.Ok? ==> fresh(r.value) && r.value.Ready()
      ensures r.Ok? ==>
                r.value.regressionModel == Some(regressionFile.model)
                && r.value.classificationModel == Some(classificationFile.model)
      ensures !regressionFile.Stored? ==> r == Err(LoadError(regressionPath, regressionFile))
      ensures regressionFile.Stored? && !classificationFile.Stored? ==>
                r == Err(LoadError(classificationPath, classificationFile))
    {
      var p := new AirPollutionPredictor.Empty();
      var loaded := p.LoadModels(regressionPath, regressionFile, classificationPath, classificationFile);
      if loaded.Fail? {
        return Err(loaded.error);
      }
      return Ok(p);
    }

    /** Construction with the default model paths. */
    static method CreateDefault(regressionFile: Artifact<Regressor>, classificationFile: Artifact<Classifier>)
      returns (r: Result<AirPollutionPredictor, Error>)
      ensures r.Ok? <==> regressionFile.Stored? && classificationFile.Stored?
      ensures r.Ok? ==> fresh(r.value) && r.value.Ready()
      ensures r.Ok? ==>
                r.value.regressionModel == Some(regressionFile.model)
                && r.value.classificationModel == Some(classificationFile.model)
      ensures !regressionFile.Stored? ==> r == Err(LoadError(DefaultRegressionPath, regressionFile))
      ensures regressionFile.Stored? && !classificationFile.Stored? ==>
                r == Err(LoadError(DefaultClassificationPath, classificationFile))
    {
      r := Create(DefaultRegressionPath, regressionFile, DefaultClassificationPath, classificationFile);
    }

    /**
     * `load_models`: the regression model first, then the classification
     * model. The first one that cannot be loaded raises, leaving later fields
     * as they were; the regression model stays set if only the
     * classification model fails.
     */
    method LoadModels(regressionPath: string, regressionFile: Artifact<Regressor>,
                      classificationPath: string, classificationFile: Artifact<Classifier>)
      returns (outcome: Outcome<Error>)
      modifies this
      ensures outcome.Pass? <==> regressionFile.Stored? && classificationFile.Stored?
      ensures outcome.Pass? ==> Ready()
      ensures !regressionFile.Stored? ==>
                outcome == Fail(LoadError(regressionPath, regressionFile))
                && regressionModel == old(regressionModel)
                && classificationModel == old(classificationModel)
      ensures regressionFile.Stored? ==> regressionModel == Some(regressionFile.model)
      ensures regressionFile.Stored? && !classificationFile.Stored? ==>
                outcome == Fail(LoadError(classificationPath, classificationFile))
                && classificationModel == old(classificationModel)
      ensures regressionFile.Stored? && classificationFile.Stored? ==>
                classificationModel == Some(classificationFile.model)
    {
      if regressionFile.Stored? {
        regressionModel := Some(regressionFile.model);
      } else {
        return Fail(LoadError(regressionPath, regressionFile));
      }
      if classificationFile.Stored? {
        classificationModel := Some(classificationFile.model);
      } else {
        return Fail(LoadError(classificationPath, classificationFile));
      }
      return Pass;
    }

    /** `prepare_features`: one row holding the eight inputs in training order. */
    static function PrepareFeatures(temperature: real, humidity: real, pm10: real, no2: real,
                                    so2: real, co: real, industrialProximity: real,
                                    populationDensity: int): (features: Matrix)
      ensures |features| == 1 && |features[0]| == |FeatureNames|
      ensures forall i :: 0 <= i < |FeatureNames| ==>
                Reading(temperature, humidity, pm10, no2, so2, co, industrialProximity,
                        populationDensity).Get(FeatureNames[i]) == Some(features[0][i])
    {
      [[temperature, humidity, pm10, no2, so2, co, industrialProximity, populationDensity as real]]
    }

    /**
     * `predict_pm25`: refuses to run without a regression model; otherwise
     * the first prediction rounded to two decimals. The model's exception,
     * or an empty prediction, propagates.
     */
    function PredictPm25(features: Matrix): (r: Result<real, Error>)
      reads this
      ensures regressionModel.None? ==> r == Err(RegressionNotLoaded)
      ensures regressionModel.Some? && regressionModel.value(features).Raised? ==>
                r == Err(PredictionFailed(regressionModel.value(features).reason))
      ensures r.Ok? <==> regressionModel.Some? && regressionModel.value(features).Returned?
                         && |regressionModel.value(features).predictions| > 0
      ensures r.Ok? ==>
                TwoDecimals(r.value)
                && Abs(r.value - regressionModel.value(features).predictions[0]) <= 0.005
      ensures r.Err? && regressionModel.Some? && regressionModel.value(features).Returned? ==>
                r == Err(NoPrediction)
    {
      match regressionModel
      case None => Err(RegressionNotLoaded)
      case Some(model) =>
        match model(features)
        case Raised(reason) => Err(PredictionFailed(reason))
        case Returned(predictions) =>
          if |predictions| == 0 then Err(NoPrediction) else Ok(Round2(predictions[0]))
    }

    /**
     * `predict_air_quality`: refuses to run without a classification model;
     * otherwise the first code, unchanged, with its label. A code outside
     * the table gets the label "Unknown", not an error.
     */
    function PredictAirQuality(features: Matrix): (r: Result<AirQuality, Error>)
      reads this
      ensures classificationModel.None? ==> r == Err(ClassificationNotLoaded)
      ensures classificationModel.Some? && classificationModel.value(features).Raised? ==>
                r == Err(PredictionFailed(classificationModel.value(features).reason))
      ensures r.Ok? <==> classificationModel.Some? && classificationModel.value(features).Returned?
                         && |classificationModel.value(features).predictions| > 0
      ensures r.Ok? ==> r.value.index == classificationModel.value(features).predictions[0]
      ensures r.Ok? ==> (r.value.name == "Unknown" <==> !(0 <= r.value.index <= 3))
      ensures r.Ok? && 0 <= r.value.index <= 3 ==> r.value.name == CategoryOfCode(r.value.index).value.Name()
      ensures r.Err? && classificationModel.Some? && classificationModel.value(features).Returned? ==>
                r == Err(NoPrediction)
    {
      match classificationModel
      case None => Err(ClassificationNotLoaded)
      case Some(model) =>
        match model(features)
        case Raised(reason) => Err(PredictionFailed(reason))
        case Returned(predictions) =>
          if |predictions| == 0 then Err(NoPrediction)
          else Ok(AirQuality(predictions[0], QualityLabel(predictions[0])))
    }

    /**
     * `predict_both`: one feature row, both predictions on it, and the
     * inputs echoed back. The regression runs first, so its error wins.
     */
    function PredictBoth(temperature: real, humidity: real, pm10: real, no2: real,
                         so2: real, co: real, industrialProximity: real,
                         populationDensity: int): (r: Result<PredictionResult, Error>)
      reads this
      ensures var features := PrepareFeatures(temperature, humidity, pm10, no2, so2, co,
                                              industrialProximity, populationDensity);
              r.Ok? <==> PredictPm25(features).Ok? && PredictAirQuality(features).Ok?
      ensures var features := PrepareFeatures(temperature, humidity, pm10, no2, so2, co,
                                              industrialProximity, populationDensity);
              r.Ok? ==>
                r.value.pm25Level == PredictPm25(features).value
                && r.value.airQualityIndex == PredictAirQuality(features).value.index
                && r.value.airQualityLabel == PredictAirQuality(features).value.name
      ensures r.Ok? ==> r.value.featuresUsed == Reading(temperature, humidity, pm10, no2, so2, co,
                                                        industrialProximity, populationDensity)
      ensures var features := PrepareFeatures(temperature, humidity, pm10, no2, so2, co,
                                              industrialProximity, populationDensity);
              PredictPm25(features).Err? ==> r == Err(PredictPm25(features).error)
      ensures var features := PrepareFeatures(temperature, humidity, pm10, no2, so2, co,
                                              industrialProximity, populationDensity);
              PredictPm25(features).Ok? && PredictAirQuality(features).Err? ==>
                r == Err(PredictAirQuality(features).error)
    {
      var features := PrepareFeatures(temperature, humidity, pm10, no2, so2, co,
                                      industrialProximity, populationDensity);
      match PredictPm25(features)
      case Err(e) => Err(e)
      case Ok(pm25Level) =>
        match PredictAirQuality(features)
        case Err(e) => Err(e)
        case Ok(quality) =>
          Ok(PredictionResult(pm25Level, quality.index, quality.name,
                              Reading(temperature, humidity, pm10, no2, so2, co,
                                      industrialProximity, populationDensity)))
    }

    /** `get_quality_description`: total; unknown labels get `NoDescription`. */
    static function GetQualityDescription(quality: string): (description: string)
      ensures description == NoDescription <==> forall c: Category :: c.Name() != quality
      ensures forall c: Category :: c.Name() == quality ==> description == Descriptions[c.Name()]
    {
      if quality in Descriptions then
        assert quality in {Good.Name(), Moderate.Name(), Unhealthy.Name(), Hazardous.Name()};
        Descriptions[quality]
      else
        NoDescription
    }
  }
}
