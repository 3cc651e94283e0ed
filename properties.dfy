/**
 * Properties of the prediction facade that relate several of its operations:
 * the two lookup tables against the category list, how the lookups compose,
 * how the combined prediction relates to the separate ones, and what an
 * unready instance does.
 */
module PredictorProperties {
  import opened Wrappers
  import opened Rounding
  import opened Predictor

  /** The code table holds exactly the four category codes, each with its category's name. */
  lemma QualityMapIsCategoryTable()
    ensures forall code :: code in QualityMap <==> CategoryOfCode(code).Some?
    ensures forall c: Category :: c.Code() in QualityMap && QualityMap[c.Code()] == c.Name()
  {
    forall c: Category ensures c.Code() in QualityMap && QualityMap[c.Code()] == c.Name() {
      match c
      case Good =>
      case Moderate =>
      case Unhealthy =>
      case Hazardous =>
    }
  }

  /** Distinct categories have distinct labels, so a label names at most one code. */
  lemma CategoryNamesDistinct(c: Category, d: Category)
    requires c.Name() == d.Name()
    ensures c == d
  {
    match c
    case Good => assert c.Name()[0] == 'G';
    case Moderate => assert c.Name()[0] == 'M';
    case Unhealthy => assert c.Name()[0] == 'U' && c.Name()[2] == 'h';
    case Hazardous => assert c.Name()[0] == 'H';
  }

  /** No category is called "Unknown". */
  lemma NoCategoryIsUnknown(c: Category)
    ensures c.Name() != "Unknown"
  {
    match c
    case Good =>
    case Moderate =>
    case Unhealthy => assert c.Name()[2] == 'h';
    case Hazardous =>
  }

  /** The label of a category's code names that category back. */
  lemma LabelRoundTrip(c: Category)
    ensures QualityLabel(c.Code()) == c.Name()
    ensures CategoryOfCode(c.Code()) == Some(c)
  {
    match c
    case Good =>
    case Moderate =>
    case Unhealthy =>
    case Hazardous =>
  }

  /**
   * The two lookups composed: a code's label has a real description exactly
   * when the code is one of the four table codes.
   */
  lemma DescriptionOfCode(code: int)
    ensures GetQualityDescriptionOf(code) == NoDescription <==> !(0 <= code <= 3)
  {
    var quality := QualityLabel(code);
    if 0 <= code <= 3 {
      var c := CategoryOfCode(code).value;
      assert c.Name() == quality;
    } else {
      assert quality == "Unknown";
      forall c: Category ensures c.Name() != quality {
        NoCategoryIsUnknown(c);
      }
    }
  }

  /** The description of the label a code gets. */
  function GetQualityDescriptionOf(code: int): string
  {
    AirPollutionPredictor.GetQualityDescription(QualityLabel(code))
  }

  /** A label that is no category's name gets the fallback sentence, "Unknown" included. */
  lemma UnknownLabelHasNoDescription()
    ensures AirPollutionPredictor.GetQualityDescription("Unknown") == NoDescription
  {
    forall c: Category ensures c.Name() != "Unknown" {
      NoCategoryIsUnknown(c);
    }
  }

  /**
   * The label `predict_air_quality` returns has the fallback description
   * exactly when the classifier's code lies outside 0..3.
   */
  lemma PredictedQualityDescription(p: AirPollutionPredictor, features: Matrix)
    requires p.PredictAirQuality(features).Ok?
    ensures var q := p.PredictAirQuality(features).value;
            AirPollutionPredictor.GetQualityDescription(q.name) == NoDescription <==> !(0 <= q.index <= 3)
  {
    var q := p.PredictAirQuality(features).value;
    assert q.name == QualityLabel(q.index);
    DescriptionOfCode(q.index);
  }

  /** `prepare_features` loses nothing: different inputs give different rows. */
  lemma PrepareFeaturesInjective(a: Reading, b: Reading)
    requires AirPollutionPredictor.PrepareFeatures(a.temperature, a.humidity, a.pm10, a.no2, a.so2, a.co,
                                                   a.industrialProximity, a.populationDensity)
          == AirPollutionPredictor.PrepareFeatures(b.temperature, b.humidity, b.pm10, b.no2, b.so2, b.co,
                                                   b.industrialProximity, b.populationDensity)
    ensures a == b
  {
    var fa := AirPollutionPredictor.PrepareFeatures(a.temperature, a.humidity, a.pm10, a.no2, a.so2, a.co,
                                                    a.industrialProximity, a.populationDensity);
    assert fa[0][7] == a.populationDensity as real;
    assert (a.populationDensity as real).Floor == a.populationDensity;
    assert (b.populationDensity as real).Floor == b.populationDensity;
  }

  /**
   * Reading the echo under a list of names succeeds exactly when every name
   * is a key, and then gives each name's value at its position.
   */
  lemma {:induction false} GetAllAt(reading: Reading, names: seq<string>)
    ensures reading.GetAll(names).Some? <==> forall i :: 0 <= i < |names| ==> reading.Get(names[i]).Some?
    ensures reading.GetAll(names).Some? ==>
              |reading.GetAll(names).value| == |names|
              && forall i :: 0 <= i < |names| ==> Some(reading.GetAll(names).value[i]) == reading.Get(names[i])
  {
    if names != [] {
      GetAllAt(reading, names[1..]);
      assert forall i :: 1 <= i < |names| ==> names[i] == names[1..][i - 1];
    }
  }

  /**
   * The row the models see is the echoed `features_used` dictionary read in
   * training order: the same inputs, in the order of the feature names.
   */
  lemma FeatureRowIsEchoInOrder(reading: Reading)
    ensures reading.GetAll(FeatureNames)
         == Some(AirPollutionPredictor.PrepareFeatures(
                   reading.temperature, reading.humidity, reading.pm10, reading.no2, reading.so2,
                   reading.co, reading.industrialProximity, reading.populationDensity)[0])
  {
    var row := AirPollutionPredictor.PrepareFeatures(
                 reading.temperature, reading.humidity, reading.pm10, reading.no2, reading.so2,
                 reading.co, reading.industrialProximity, reading.populationDensity)[0];
    GetAllAt(reading, FeatureNames);
    assert reading.GetAll(FeatureNames).value == row;
  }

  /** The worked example: the default readings give this row, in this order. */
  lemma ExampleFeatureRow()
    ensures AirPollutionPredictor.PrepareFeatures(25.0, 50.0, 20.0, 15.0, 10.0, 1.0, 5.0, 500)
         == [[25.0, 50.0, 20.0, 15.0, 10.0, 1.0, 5.0, 500.0]]
  {
  }

  /** The worked example: code 5 is "Unknown" with the fallback sentence, not an error. */
  lemma ExampleUnknownCode()
    ensures QualityLabel(5) == "Unknown"
    ensures GetQualityDescriptionOf(5) == NoDescription
  {
    DescriptionOfCode(5);
  }

  /** The PM2.5 level returned is the hundredth nearest to the model's raw estimate. */
  lemma Pm25IsNearestHundredth(p: AirPollutionPredictor, features: Matrix, d: real)
    requires p.PredictPm25(features).Ok?
    requires TwoDecimals(d)
    ensures var estimate := p.regressionModel.value(features).predictions[0];
            Abs(p.PredictPm25(features).value - estimate) <= Abs(d - estimate)
  {
    var estimate := p.regressionModel.value(features).predictions[0];
    assert p.PredictPm25(features).value == Round2(estimate);
    Round2Nearest(estimate, d);
  }

  /**
   * An instance missing a model cannot predict both: the missing regression
   * model is reported first, then the missing classification model.
   */
  lemma UnreadyPredictBothFails(p: AirPollutionPredictor, reading: Reading)
    requires !p.Ready()
    ensures var r := p.PredictBoth(reading.temperature, reading.humidity, reading.pm10, reading.no2,
                                   reading.so2, reading.co, reading.industrialProximity,
                                   reading.populationDensity);
            r.Err?
            && (p.regressionModel.None? ==> r.error == RegressionNotLoaded)
            && (p.regressionModel.Some? ==> r.error != RegressionNotLoaded)
    ensures var features := AirPollutionPredictor.PrepareFeatures(
              reading.temperature, reading.humidity, reading.pm10, reading.no2, reading.so2,
              reading.co, reading.industrialProximity, reading.populationDensity);
            p.classificationModel.None? && p.PredictPm25(features).Ok? ==>
              p.PredictBoth(reading.temperature, reading.humidity, reading.pm10, reading.no2,
                            reading.so2, reading.co, reading.industrialProximity,
                            reading.populationDensity) == Err(ClassificationNotLoaded)
  {
  }

  /**
   * A ready instance whose two models each return a prediction for the row
   * produces the combined result, whatever the classifier's code.
   */
  lemma ReadyPredictBothSucceeds(p: AirPollutionPredictor, reading: Reading)
    requires p.Ready()
    requires var features := AirPollutionPredictor.PrepareFeatures(
               reading.temperature, reading.humidity, reading.pm10, reading.no2, reading.so2,
               reading.co, reading.industrialProximity, reading.populationDensity);
             p.regressionModel.value(features).Returned?
             && |p.regressionModel.value(features).predictions| > 0
             && p.classificationModel.value(features).Returned?
             && |p.classificationModel.value(features).predictions| > 0
    ensures var r := p.PredictBoth(reading.temperature, reading.humidity, reading.pm10, reading.no2,
                                   reading.so2, reading.co, reading.industrialProximity,
                                   reading.populationDensity);
            r.Ok? && r.value.featuresUsed == reading
  {
  }
}
