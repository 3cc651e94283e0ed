# Air pollution predictor — Dafny model

This project models the prediction facade `AirPollutionPredictor` of the Air
Pollution Prediction System (`Front-End/air_pollution_predictor.py`). The
facade holds two trained models: a regression model that estimates the PM2.5
level and a classification model that returns an air-quality code. It loads
both models from pickle files when it is constructed. It packs eight
environmental readings into the feature row the models expect. It maps the
classifier's code to one of four labels ("Unknown" for any other code), and
each label to a health sentence ("No description available." for anything
else).

Files:

- `wrappers.dfy`: `Option`, `Result` and `Outcome`, used for the exceptions
  the facade raises.
- `rounding.dfy`: `round(x, 2)` as round-half-even of `100 * x`, divided by
  100, on exact reals.
- `predictor.dfy`: the entities (readings, feature rows, errors, the
  categories and both lookup tables) and the class `AirPollutionPredictor`.
  The class has two `Option` fields that `LoadModels` fills in, guarded
  prediction functions that read those fields, and static functions for the
  feature row and the description lookup.
- `properties.dfy`: lemmas that relate the operations. They cover the tables
  against the category list, how the two lookups compose, the unready and
  ready cases of the combined prediction, and the worked examples.

The trained models are opaque. Each is a function value from a batch of rows
to the predictions it returns, or to the exception it raises (`Call`). The
outcome of opening a model file is an abstract input (`Artifact`): the file is
missing, unpickling it raises, or it holds a model. The Python constructor
raises when loading fails. Here `Create` returns a `Result`, so a failed
construction yields no instance.

Error behaviour of the code, as modelled by `Error`:

- A missing model file raises `FileNotFoundError` naming its path. An
  unpickling failure propagates unchanged. A predictor without its model
  raises `ValueError`. A model's own exception propagates unchanged.
- `load_models` sets the regression model before it looks at the
  classification file. When only the classification file fails, the
  regression field is already set. Through the constructor that instance is
  discarded. A direct call to `LoadModels` leaves it half-loaded, and its
  contract says so.
- `prediction[0]` on an empty prediction raises inside the same `try`. This
  is `NoPrediction`.

## Model

| member | source | states |
|---|---|---|
| `Predictor.AirPollutionPredictor.Empty` | Front-End/air_pollution_predictor.py:14-15 | a new instance has both model fields unset |
| `Predictor.AirPollutionPredictor.Create` | Front-End/air_pollution_predictor.py:6-19 | construction succeeds exactly when both files hold a model, and then the instance is ready and holds those two models; otherwise it fails with the regression file's error if that file failed, else with the classification file's error |
| `Predictor.AirPollutionPredictor.CreateDefault` | Front-End/air_pollution_predictor.py:6 | construction from the default paths `regression_model.pkl` and `classification_model.pkl`: succeeds exactly when both files hold a model, and then the instance is ready and holds those two models; otherwise it fails with the regression file's error if that file failed (a missing file reported under its default path), else with the classification file's error |
| `Predictor.AirPollutionPredictor.LoadModels` | Front-End/air_pollution_predictor.py:21-42 | a missing or unreadable regression file raises and changes neither field; otherwise the regression model is set, and then a missing or unreadable classification file raises and leaves the classification field as it was; success exactly when both load, leaving the instance ready |
| `Predictor.AirPollutionPredictor.PrepareFeatures` | Front-End/air_pollution_predictor.py:61 | one row of eight values; the value in column i is the input named by the i-th feature name (temperature, humidity, pm10, no2, so2, co, industrial_proximity, population_density), unchanged |
| `Predictor.AirPollutionPredictor.PredictPm25` | Front-End/air_pollution_predictor.py:63-81 | without a regression model it fails with "not loaded" and the model plays no part; the model's exception and an empty prediction propagate; it succeeds exactly when the model returns at least one value, and the result has two decimals and lies within 0.005 of the first predicted value |
| `Predictor.AirPollutionPredictor.PredictAirQuality` | Front-End/air_pollution_predictor.py:83-103 | without a classification model it fails with "not loaded" and the model plays no part; the model's exception and an empty prediction propagate; on success the index is the first predicted code, unchanged, and the label is "Unknown" exactly when the code is outside 0..3, else that code's category name |
| `Predictor.AirPollutionPredictor.PredictBoth` | Front-End/air_pollution_predictor.py:105-131 | succeeds exactly when both predictions on the same prepared row succeed, and then its fields equal those two predictions and the echo equals the eight inputs; if the PM2.5 prediction fails its error is returned, else the air-quality error |
| `Predictor.AirPollutionPredictor.GetQualityDescription` | Front-End/air_pollution_predictor.py:133-141 | total; returns the fallback sentence exactly when the label names no category, and the category's own sentence otherwise |
| `Predictor.QualityLabel` | Front-End/air_pollution_predictor.py:99 | a code of a category gets that category's name; any other code gets "Unknown"; the label is "Unknown" exactly when the code is outside 0..3 |
| `Predictor.CategoryOfCode` | Front-End/air_pollution_predictor.py:16 | the category a code stands for has that code; when there is none, no category has that code |
| `Rounding.RoundHalfEven` | Front-End/air_pollution_predictor.py:78 | the result is within 0.5 of its argument, and is even when it is exactly 0.5 away |
| `Rounding.Round2` | Front-End/air_pollution_predictor.py:78 | the rounded value has at most two decimals and lies within 0.005 of the unrounded one |
| `Rounding.RoundHalfEvenNearest` | Front-End/air_pollution_predictor.py:78 | no integer is closer to the argument than its rounding |
| `Rounding.RoundHalfEvenOfInt` | Front-End/air_pollution_predictor.py:78 | an integer rounds to itself |
| `Rounding.RoundHalfEvenMonotone` | Front-End/air_pollution_predictor.py:78 | rounding to an integer keeps the order of its arguments |
| `Rounding.Round2Idempotent` | Front-End/air_pollution_predictor.py:78 | a value that already has two decimals is unchanged by rounding |
| `Rounding.Round2Nearest` | Front-End/air_pollution_predictor.py:78 | no two-decimal value is closer to the argument than its rounding |
| `Rounding.Round2Monotone` | Front-End/air_pollution_predictor.py:78 | rounding to two decimals keeps the order of its arguments |
| `PredictorProperties.QualityMapIsCategoryTable` | Front-End/air_pollution_predictor.py:16 | the code table's keys are exactly the four category codes 0..3, and each maps to its category's name (Good, Moderate, Unhealthy, Hazardous) |
| `PredictorProperties.CategoryNamesDistinct` | Front-End/air_pollution_predictor.py:16 | two categories with the same label are the same category |
| `PredictorProperties.NoCategoryIsUnknown` | Front-End/air_pollution_predictor.py:99 | the fallback label "Unknown" is no category's name |
| `PredictorProperties.LabelRoundTrip` | Front-End/air_pollution_predictor.py:99 | a category's code is labelled with that category's name and decodes back to the category |
| `PredictorProperties.DescriptionOfCode` | Front-End/air_pollution_predictor.py:135-141 | the description of a code's label is the fallback sentence exactly when the code is outside 0..3 |
| `PredictorProperties.UnknownLabelHasNoDescription` | Front-End/air_pollution_predictor.py:141 | the label "Unknown" gets the fallback sentence |
| `PredictorProperties.PredictedQualityDescription` | Front-End/air_pollution_predictor.py:97-100 | for a successful air-quality prediction, the label's description is the fallback sentence exactly when the returned code is outside 0..3 |
| `PredictorProperties.PrepareFeaturesInjective` | Front-End/air_pollution_predictor.py:61 | two sets of inputs that give the same feature row are equal: the row loses nothing |
| `PredictorProperties.GetAllAt` | Front-End/air_pollution_predictor.py:121-130 | reading the echoed `features_used` dictionary under a list of names succeeds exactly when every name is one of its keys, and then gives each name's value at its position |
| `PredictorProperties.FeatureRowIsEchoInOrder` | Front-End/air_pollution_predictor.py:112-130 | the row passed to both models is the echoed `features_used` dictionary read in training order |
| `PredictorProperties.ExampleFeatureRow` | Front-End/air_pollution_predictor.py:61 | readings 25, 50, 20, 15, 10, 1, 5 and 500 give the row [25, 50, 20, 15, 10, 1, 5, 500] |
| `PredictorProperties.ExampleUnknownCode` | Front-End/air_pollution_predictor.py:99 | code 5 is labelled "Unknown" and described by the fallback sentence |
| `PredictorProperties.Pm25IsNearestHundredth` | Front-End/air_pollution_predictor.py:78 | the PM2.5 level returned is at least as close to the model's estimate as any two-decimal value |
| `PredictorProperties.UnreadyPredictBothFails` | Front-End/air_pollution_predictor.py:112-115 | an instance missing a model never returns a combined result; a missing regression model is reported as such; a missing classification model is reported when the PM2.5 prediction succeeded |
| `PredictorProperties.ReadyPredictBothSucceeds` | Front-End/air_pollution_predictor.py:112-131 | a ready instance whose models both return a prediction for the row gives a combined result whose echo is the reading, whatever the code |

## Left out

- File access: `os.path.exists`, `open` and `pickle.load` are one abstract input per model file (`Artifact`). The paths only appear in error values.
- A pickle file that holds `None`: loading it leaves the field unset in Python. The model treats every stored artifact as a model.
- The bodies of the two models' `predict`: they are opaque function values.
- `Rounding.Round2`: computed on exact reals, not on binary floating point, so representation error (`round(2.675, 2) == 2.67`) is not modelled.
- The success and error `print` calls and the catch-and-re-raise blocks: they only log, and the error propagates unchanged.
- NumPy types: a batch is a sequence of rows of reals, and the population density enters the row with an exact `as real`. NumPy converts it to a 64-bit float, which holds integers exactly only up to 2^53, so for larger densities the real row is lossy while the model's is not; `PredictorProperties.PrepareFeaturesInjective` holds for the exact row only.
- `quality_map` is an instance attribute in Python that nothing changes; here it is the module constant `QualityMap`.
- `Front-End/app.py`: the Streamlit form, its widget ranges, its own model loading and its direct table indexing are presentation code, not part of this model.
- Concurrency: the facade is single-threaded.
