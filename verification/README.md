# AirSense backend core, in Dafny

AirSense is an air-quality forecasting backend. Its core reads readings of
PM2.5, ozone, NO2 and formaldehyde from two kinds of source:

- the OpenAQ ground-station API;
- NASA's TEMPO satellite granules, which are searched, downloaded and reduced
  to one record per grid cell.

The core then does the following:

- cleans the readings: trims and checks the fields, converts units to µg/m³,
  range-checks the values and renames the parameters to canonical names;
- flags outliers by the IQR, z-score or modified z-score rule;
- aggregates the readings by hour or day;
- ingests OpenAQ, TOLNet and (simulated) Daymet weather into the
  `measurements` and `weather` tables;
- regroups stored rows per city and instant for the model;
- trains a random-forest forecaster on lag, rolling-mean and difference
  features and predicts the next hours;
- validates the API's request and response bodies against its pydantic schemas.

This project models that core as pure functions over immutable data.

The modules follow the source files:

| module | models |
|---|---|
| `DataProcessor` | cleaning and unit conversion of `utils/data_processor.py` |
| `Outliers` | the outlier rules of `utils/data_processor.py` |
| `Aggregation` | the period aggregation of `utils/data_processor.py` |
| `OpenAqClient` | `utils/openaq_client.py` |
| `TempoClient` | `utils/tempo_client.py` |
| `NasaDataClient` | `utils/nasa_data_client.py` |
| `Granules` | granule processing shared by both TEMPO readers |
| `Geo` | the nearest-city scan shared by three files |
| `Ingest` | the ingestion manager of `data_ingest.py` |
| `NormalizedData` | `get_normalized_data` of `data_ingest.py` |
| `Forecaster` | `ml_model.py` |
| `Schemas` | `schemas.py` |

`Py`, `Text`, `Stats`, `Sorting`, `Calendar`, `Seqs` and `Wrappers` hold the
Python value model, string functions, numpy statistics, sorting, calendar
fields and sequence helpers.

Several things outside the core are passed in as parameters, so every
statement holds for every answer they could give:

- the clock, as a reading in seconds;
- HTTP responses, as the decoded JSON value, or `None` for a failed request;
- downloaded granule files;
- the random-forest fit and predict, as function parameters;
- the stored model files, as a map;
- the simulated weather readings;
- the string-to-number and string-to-date parsers.

Python raising an exception that a handler catches is modelled as `None` or
an `Err` on that path.

## Model

| member | source | states |
|---|---|---|
| DataProcessor.ConvertPpmPpb | Backend/utils/data_processor.py:164-186 | A ppm/ppb reading converts exactly when the parameter, spelled as given, has a molecular weight. The result is in µg/m³: value × 1000 × weight for ppm, value × weight for ppb. |
| DataProcessor.ConvertUnits | Backend/utils/data_processor.py:134-161 | Conversion fails only for ppm/ppb. A result not in µg/m³ carries the unit lower-cased and trimmed. |
| DataProcessor.ConvertUnitsCases | Backend/utils/data_processor.py:141-161 | Mass units are scaled by their factor into µg/m³. ppm/ppb go through the molecular-weight conversion. mol/m², mol/m2 and unknown units keep their value and their lower-cased trimmed label. |
| DataProcessor.MixingRatioNotMass | Backend/utils/data_processor.py:26-34 | ppm and ppb are table entries without a factor, so they never take the mass path. |
| DataProcessor.ConvertUnitsCanonicalIff | Backend/utils/data_processor.py:141-161 | The result is in µg/m³ if and only if the unit is a mass unit, or is ppm/ppb under a parameter with a molecular weight. |
| DataProcessor.NormalizeParameterName | Backend/utils/data_processor.py:200-218 | A name whose lower-cased, trimmed form is an alias becomes that alias's canonical name, which is always a key of the range table. Any other name is upper-cased. |
| DataProcessor.TextField | Backend/utils/data_processor.py:76-79 | A missing text field reads as the empty string. |
| DataProcessor.ExtractFields | Backend/utils/data_processor.py:76-85 | The field stage passes if and only if the trimmed city, parameter and unit are non-empty and a value and a date are present. It yields exactly those trimmed fields. |
| DataProcessor.ReadValueAndDate | Backend/utils/data_processor.py:88-105 | The value stage passes if and only if the value converts to a float and the date is a datetime, or an ISO string, that is naive and within [now - 365 days, now + 1 day]. An offset-aware date is refused. |
| DataProcessor.ConvertAndValidate | Backend/utils/data_processor.py:108-117 | The conversion stage passes if and only if the unit converts and the converted value is plausible for the parameter as it arrived. It yields the renamed parameter and the converted reading. |
| DataProcessor.CleanSingle | Backend/utils/data_processor.py:70-131 | A record is kept if and only if all three stages pass, in source order. A kept record has every required field. |
| DataProcessor.CleanSingleKeptFields | Backend/utils/data_processor.py:119-127 | A kept record holds the trimmed city and the canonical parameter. Its value is plausible for the name as it arrived. The value is in µg/m³, or else in the lower-cased, trimmed original unit. |
| DataProcessor.CleanMeasurements | Backend/utils/data_processor.py:45-67 | Cleaning never adds records. |
| DataProcessor.CleanMeasurementsKeepsExactlyAccepted | Backend/utils/data_processor.py:55-67 | A record is in the output if and only if some input record cleans to it. |
| DataProcessor.CleanMeasurementsDropsNothingIff | Backend/utils/data_processor.py:55-67 | The output is as long as the input if and only if every record cleans. |
| DataProcessor.CleanMeasurementsConcat | Backend/utils/data_processor.py:57-61 | Cleaning distributes over concatenation, so the input order is kept. |
| DataProcessor.UnitKeyOfPlainName | Backend/utils/data_processor.py:141 | A lower-case name without surrounding space is its own lookup key. |
| DataProcessor.PpbOzoneExample | Backend/utils/data_processor.py:169-186 | 50 ppb of `O3` becomes 2400 µg/m³. The same reading named `o3` finds no molecular weight and fails. |
| DataProcessor.CanonicalConversionIdempotent | Backend/utils/data_processor.py:144-147 | A value in µg/m³ converts to itself, so converting twice is converting once. |
| DataProcessor.CanonicalUnitKey | Backend/utils/data_processor.py:141 | µg/m³ is its own lookup key. |
| DataProcessor.CanonicalUnitIsMass | Backend/utils/data_processor.py:26-27 | µg/m³ is a mass unit with factor 1. |
| DataProcessor.CleanSingleStages | Backend/utils/data_processor.py:84-117 | The cleaner's result is the first failing stage's error, or else the record the last stage builds. |
| DataProcessor.TrimmedRecordFields | Backend/utils/data_processor.py:76-85 | A record whose text fields are already trimmed and non-empty passes the field stage unchanged. |
| DataProcessor.CleanSingleKeeps | Backend/utils/data_processor.py:70-131 | A trimmed record with a float value, a naive in-window date, a µg/m³ unit and a plausible value is kept. It carries the trimmed city, the canonical parameter, the value and its source. |
| DataProcessor.AliasBypassesRangeCheck | Backend/utils/data_processor.py:108-117 | A reading under an alias that is not a range-table key is kept whatever its value. It is renamed to a canonical name whose range it may violate. |
| DataProcessor.Pm25Alias | Backend/utils/data_processor.py:204-217 | `pm25` is such an alias: it maps to PM2.5 and is neither a range key nor a molecular-weight key. |
| DataProcessor.CanonicalNameRangeChecked | Backend/utils/data_processor.py:189-197 | Under a name the range table knows, a reading outside the range is dropped. |
| DataProcessor.AwareIsoDateDropped | Backend/utils/data_processor.py:94-105 | A record dated by an offset-aware ISO string such as "2024-01-01T00:00:00Z" is dropped. Comparing it with the naive clock raises. |
| DataProcessor.StaleRecordDropped | Backend/utils/data_processor.py:103-105 | A record dated 366 days before the clock is dropped. |
| Outliers.IqrFences | Backend/utils/data_processor.py:269-282 | The fences Q1 - 1.5 IQR and Q3 + 1.5 IQR enclose both quartiles. |
| Outliers.IqrOutliers | Backend/utils/data_processor.py:269-282 | Only values outside the quartile range are flagged, so the middle half is never flagged. When the quartiles coincide, a value is flagged if and only if it differs from them. |
| Outliers.ZScoreOutliers | Backend/utils/data_processor.py:285-299 | A series with zero variance has no outliers. The mean itself is never flagged. |
| Outliers.ModifiedZOutliers | Backend/utils/data_processor.py:302-316 | With a zero median absolute deviation nothing is flagged. The median itself is never flagged. |
| Outliers.Detect | Backend/utils/data_processor.py:249-254 | The detected positions lie in the series. An unknown method name detects nothing. |
| Outliers.ConstantSeriesNotFlagged | Backend/utils/data_processor.py:269-316 | No rule flags anything in a constant series. |
| Outliers.ZScoreNeedsElevenValues | Backend/utils/data_processor.py:285-299 | With at most ten values the z-score rule flags nothing: by Samuelson's inequality no value is more than 3 standard deviations from the mean. |
| Outliers.ParameterValues | Backend/utils/data_processor.py:238-244 | One value per record of the parameter. |
| Outliers.DetectOutliers | Backend/utils/data_processor.py:221-266 | As written: only the `outlier` fields change, and nothing changes with fewer than 3 readings of the parameter. With 3 or more, position k of the detector marks the record at position k of the whole list. |
| Outliers.DetectOutliersByRank | Backend/utils/data_processor.py:221-266 | As intended: the same shape, with the detector's positions counted among the parameter's own records. |
| Outliers.ByRankJudgesOwnValue | Backend/utils/data_processor.py:238-260 | As intended, each record of the parameter is flagged exactly when the detector flags its rank among those records. Other records are not flagged. |
| Outliers.ByRankFlagsEachDetection | Backend/utils/data_processor.py:238-260 | Every detected position belongs to exactly one record of the parameter. |
| Outliers.ConstantRecordsNotFlagged | Backend/utils/data_processor.py:221-266 | When all readings of the parameter are equal, neither version flags a new record. |
| Outliers.FewRecordsNoZScoreOutliers | Backend/utils/data_processor.py:221-266 | With at most ten readings of the parameter, the z-score rule flags no new record in either version. |
| Outliers.IqrExample | Backend/utils/data_processor.py:269-282 | On [1, 1, 1, 100] the IQR rule flags exactly the 100. |
| Outliers.DetectOutliersMisattributes | Backend/utils/data_processor.py:238-260 | One reading of another parameter ahead of readings 1, 1, 1, 100 of `p`: as written the last `1` is flagged and the 100 is not. By rank, the 100 is flagged. |
| Aggregation.InsertKeyAscending | Backend/utils/data_processor.py:347-351 | Inserting a group key keeps the key list strictly ascending. |
| Aggregation.Floor | Backend/utils/data_processor.py:339-342 | `floor` gives the start of the period that holds the instant. |
| Aggregation.GroupKeysFacts | Backend/utils/data_processor.py:347-351 | The group keys are strictly ascending, and they are exactly the keys of the records. |
| Aggregation.FirstSource | Backend/utils/data_processor.py:347-351 | `first` is null exactly when every source is null, and otherwise is some record's source. |
| Aggregation.GroupRows | Backend/utils/data_processor.py:347-363 | One row per group key, in key order. |
| Aggregation.AggregateMeasurements | Backend/utils/data_processor.py:319-365 | Mixing naive and aware dates raises. An empty list, or an aggregation that is neither hourly nor daily, returns the records unchanged. Otherwise there is at most one row per record. |
| Aggregation.AggregateGroups | Backend/utils/data_processor.py:339-363 | With a known period and uniform dates, the result is one row per group. |
| Aggregation.GroupRowsOrdered | Backend/utils/data_processor.py:347-351 | The rows come in key order, so no two rows share a group. |
| Aggregation.GroupRowsCoverRecords | Backend/utils/data_processor.py:347-351 | Every record's group has a row. |
| Aggregation.GroupRowsFromRecords | Backend/utils/data_processor.py:347-351 | Every row is the group of some record. |
| Aggregation.GroupRowContents | Backend/utils/data_processor.py:347-363 | A row's value is the mean of exactly its group's values, so it lies within any bounds on them. It carries the unit of the group's earliest record and the period start of every member's date. |
| Aggregation.GroupRowConstant | Backend/utils/data_processor.py:347-351 | A group whose readings all equal c aggregates to c. |
| OpenAqClient.NormalizeParameter | Backend/utils/openaq_client.py:128-135 | A requested parameter with a known lower-cased form is reported under its mapped name. Any other is upper-cased. |
| OpenAqClient.ProcessMeasurement | Backend/utils/openaq_client.py:102-149 | An item is refused if it is not a dictionary, or lacks a value, a unit or a string `date.utc`. An accepted item has all of these and yields the city, the reported name, the float value and the UTC date. |
| OpenAqClient.ProcessMeasurementAccepts | Backend/utils/openaq_client.py:102-149 | A well-formed item is always accepted. |
| OpenAqClient.ResultItems | Backend/utils/openaq_client.py:77-80 | Items are read only from the `results` list of a successful JSON object. |
| OpenAqClient.Accepted | Backend/utils/openaq_client.py:79-87 | The accepted records of one response belong to the city and the requested parameter. |
| OpenAqClient.ParametersOrDefault | Backend/utils/openaq_client.py:45-46 | No parameters means the default list. |
| OpenAqClient.Collect | Backend/utils/openaq_client.py:55-97 | Every record belongs to the city and to OpenAQ. |
| OpenAqClient.CollectParameters | Backend/utils/openaq_client.py:55-87 | Every record is reported under the name of one of the requested parameters. |
| OpenAqClient.GetMeasurements | Backend/utils/openaq_client.py:24-100 | Records belong to the city. No parameters means PM2.5, O3 and NO2. |
| OpenAqClient.CollectConcat | Backend/utils/openaq_client.py:55-97 | Results come in parameter order. |
| OpenAqClient.FailedParameterSkipped | Backend/utils/openaq_client.py:92-97 | A parameter whose request fails adds nothing and leaves the others' results unchanged. |
| OpenAqClient.CollectBounded | Backend/utils/openaq_client.py:84-87 | At most one record per response item. |
| OpenAqClient.CityNames | Backend/utils/openaq_client.py:171-175 | The listed names are the truthy `city` fields, at most one per item. |
| OpenAqClient.GetAvailableCities | Backend/utils/openaq_client.py:151-181 | The result is sorted and holds exactly the listed names, as a permutation. It is empty when reading them raised. |
| TempoClient.CityFromCoords | Backend/utils/tempo_client.py:244-278 | The answer is always one of the fifteen table cities. |
| TempoClient.ExactCoordinatesName | Backend/utils/tempo_client.py:244-278 | A table entry's own coordinates give that entry's name. |
| TempoClient.NeverUnknown | Backend/utils/tempo_client.py:270-276 | The seed `Unknown` is never the answer. |
| TempoClient.ParametersOrDefault | Backend/utils/tempo_client.py:68-69 | No parameters means NO2, O3, HCHO and H2CO. |
| TempoClient.SearchTempoData | Backend/utils/tempo_client.py:49-91 | The search uses the given window and bounding box, or the continental default box. |
| TempoClient.SearchIgnoresParameters | Backend/utils/tempo_client.py:49-91 | The requested parameters never change the search. |
| TempoClient.DownloadTempoData | Backend/utils/tempo_client.py:93-152 | `records_processed` counts the measurements. A failed download is empty and carries the error. Every record is from TEMPO in the file's unit label. |
| TempoClient.GetRecentTempoData | Backend/utils/tempo_client.py:280-311 | `records_processed` counts the measurements. No granules means the empty result. |
| TempoClient.RecordsKeepOriginalParameter | Backend/utils/tempo_client.py:205-229 | Each record names its file and a requested parameter, under the mapped name, and the city nearest its coordinates. |
| TempoClient.CleanerKeepsMangledUnit | Backend/utils/tempo_client.py:220 | The unit label `mol/mÂ²` is not one the cleaner knows, so cleaning passes it through lower-cased. |
| NasaDataClient.CitiesArePrefixOfTempoTable | Backend/utils/nasa_data_client.py:341-366 | The ten cities are the first ten of the TEMPO reader's table. |
| NasaDataClient.CityFromCoords | Backend/utils/nasa_data_client.py:341-366 | The answer is always one of the ten cities. |
| NasaDataClient.ExactCoordinatesName | Backend/utils/nasa_data_client.py:341-366 | A table entry's own coordinates give that entry's name. |
| NasaDataClient.DownloadTempoData | Backend/utils/nasa_data_client.py:219-260 | `records_processed` counts the measurements. A failed download is empty and carries the error. |
| NasaDataClient.TempoRecordShape | Backend/utils/nasa_data_client.py:262-339 | Each record is from TEMPO in mol/m², under a mapped requested name, with no raw data, attributed to the city nearest its cell. |
| NasaDataClient.TempoData | Backend/utils/nasa_data_client.py:119-141 | No granules means no records. Otherwise the result is the download of the default four parameters, whatever was requested. |
| NasaDataClient.SourceData | Backend/utils/nasa_data_client.py:84-94 | Only the four known source names yield a list. Only `tempo` yields records. |
| NasaDataClient.Merge | Backend/utils/nasa_data_client.py:78-100 | The per-source table has an entry exactly for the known sources named. Each entry holds that source's list and its length. |
| NasaDataClient.GetAirQualityData | Backend/utils/nasa_data_client.py:53-117 | The total is the merged list's length. The default parameters apply when none are given. |
| NasaDataClient.MergeConcatenates | Backend/utils/nasa_data_client.py:78-100 | The merged list is the sources' lists concatenated in the order the sources are named. |
| NasaDataClient.CountsMatchConcatenation | Backend/utils/nasa_data_client.py:96-113 | The recorded counts over the names sum to the merged length. |
| NasaDataClient.TotalIsSumOfCounts | Backend/utils/nasa_data_client.py:53-117 | The merged list is the concatenation in name order. The total is the sum of the counts over the names. Known names have entries and unknown names none. |
| NasaDataClient.RepeatedSourceCountedTwice | Backend/utils/nasa_data_client.py:82-113 | A source named twice is counted twice in the total but held once in the table. |
| Granules.MapParameter | Backend/utils/tempo_client.py:207-214 | H2CO becomes HCHO. Every other name is kept. |
| Granules.MapParameterIdempotent | Backend/utils/tempo_client.py:207-214 | Mapping twice is mapping once. |
| Granules.CellRecord | Backend/utils/tempo_client.py:189-229 | A cell yields a record exactly when its time converts. |
| Granules.CellRecords | Backend/utils/tempo_client.py:188-235 | One record per timed cell, each shaped after its file and parameter. |
| Granules.CellRecordsCoverCells | Backend/utils/tempo_client.py:188-231 | Each timed cell yields a record with its own coordinates, value and time. |
| Granules.ParameterRecords | Backend/utils/tempo_client.py:170-186 | A parameter the file lacks yields nothing. |
| Granules.ProcessFile | Backend/utils/tempo_client.py:154-242 | A file that cannot be read yields nothing. Every record comes from a requested parameter. |
| Granules.ProcessFileCount | Backend/utils/tempo_client.py:154-242 | A file yields exactly one record per timed cell of each requested parameter it holds. |
| Granules.Paths | Backend/utils/tempo_client.py:123-124 | The reported files are the downloaded paths, in order. |
| Granules.ProcessFiles | Backend/utils/tempo_client.py:129-135 | Every record comes from one of the files and one of the requested parameters. |
| Granules.Download | Backend/utils/tempo_client.py:93-152 | `records_processed` counts the measurements. A failure yields the empty result with its error. Every record is from TEMPO under a mapped requested name. |
| Geo.NearestIn | Backend/data_ingest.py:483-487 | After n cities the scan holds the earliest of the closest among them. |
| Geo.Nearest | Backend/data_ingest.py:479-489 | The index is at least as close as every city, and strictly closer than every earlier one. |
| Geo.NearestIsEarliestArgmin | Backend/data_ingest.py:479-489 | That property determines the answer uniquely: ties go to the earlier entry. |
| Geo.ClosestName | Backend/utils/tempo_client.py:244-278 | An empty table answers the seed. Otherwise the answer is some city's name. |
| Geo.ClosestNameNeverDefault | Backend/utils/nasa_data_client.py:341-366 | A non-empty table whose names differ from the seed never answers the seed. |
| Geo.ExactCoordinatesFindEntry | Backend/data_ingest.py:479-489 | An isolated entry's coordinates find that entry. |
| Ingest.ConstructorVerdicts | Backend/data_ingest.py:203-213 | The measurement keywords name `datetime_utc`, `latitude`, `longitude` and `raw_data`, which the table lacks, so the constructor refuses them. The column names and the weather keywords are accepted. |
| Ingest.PpmFactor | Backend/data_ingest.py:521-530 | Every ppm factor is positive, and an unknown parameter gets 1000. |
| Ingest.PpbFactor | Backend/data_ingest.py:532-534 | The ppb factor is a thousandth of the ppm factor. |
| Ingest.NormalizeUnits | Backend/data_ingest.py:491-519 | The result is always labelled µg/m³. |
| Ingest.UnitFactorKeys | Backend/data_ingest.py:506-513 | The table's mass units are exactly the cleaner's, with the same factors. |
| Ingest.MassUnitsAgreeWithCleaner | Backend/data_ingest.py:503-517 | For mass units the ingest scales exactly as the cleaner does. |
| Ingest.PpbIsThousandthOfPpm | Backend/data_ingest.py:503-534 | A ppb reading normalises to a thousandth of the same number read as ppm. |
| Ingest.ScalePpb | Backend/data_ingest.py:511-516 | The ppb scaling is a thousandth of the ppm scaling. |
| Ingest.UnknownUnitRelabelled | Backend/data_ingest.py:515-517 | An unknown unit keeps its value in both tables. The ingest relabels it µg/m³, where the cleaner keeps the label. |
| Ingest.OzonePpbDisagreesWithCleaner | Backend/data_ingest.py:511-534 | 50 ppb of O3 is 100 µg/m³ here and 2400 µg/m³ in the cleaner. |
| Ingest.NormalizeParameter | Backend/data_ingest.py:295-304 | A known lower-cased name maps to one of the table's names. Any other is upper-cased. |
| Ingest.SameNamesAsClient | Backend/data_ingest.py:295-304 | The ingest names every parameter as the OpenAQ client does. |
| Ingest.ExtraNameIsUpperCase | Backend/data_ingest.py:298-302 | The renames the client lacks agree with upper-casing. |
| Ingest.ClosestCity | Backend/data_ingest.py:468-489 | An answer exists if and only if some city is configured, and it is a configured city's name. |
| Ingest.DefaultCitiesFoundAtTheirCoordinates | Backend/data_ingest.py:479-489 | Each configured city is found at its own coordinates. |
| Ingest.Numeric | Backend/data_ingest.py:516 | Only numbers and booleans can be multiplied by the factor. |
| Ingest.OpenAqFields | Backend/data_ingest.py:284-320 | A row is built only from a dictionary item that passes the guard. It has the city and the normalised reading. |
| Ingest.OpenAqRow | Backend/data_ingest.py:310-322 | A row is stored if and only if it is built and the constructor accepts the keywords. |
| Ingest.OpenAqWellFormedItem | Backend/data_ingest.py:286-322 | A well-formed item's fields are its normalised reading. With the keywords as written it stores nothing. |
| Ingest.ItemRows | Backend/data_ingest.py:284-326 | Stored rows belong to the city and to OpenAQ, in µg/m³, at most one per item. |
| Ingest.OpenAqRows | Backend/data_ingest.py:259-333 | Every stored row is an OpenAQ row in µg/m³. |
| Ingest.OpenAqRowsConfiguredCity | Backend/data_ingest.py:259-311 | Each stored row names a configured city. |
| Ingest.IngestOpenAq | Backend/data_ingest.py:242-351 | Errors per city and per item are swallowed, so the ingest always succeeds, with the stored rows as its count. |
| Ingest.ItemRowsAsWritten | Backend/data_ingest.py:310-326 | With the keywords as written, every item's constructor raises. |
| Ingest.OpenAqAsWrittenStoresNothing | Backend/data_ingest.py:242-351 | As written, the OpenAQ ingest succeeds with 0 records. |
| Ingest.ItemRowsCorrected | Backend/data_ingest.py:284-326 | With the table's column names, exactly the items that pass every step are stored. |
| Ingest.PairFields | Backend/data_ingest.py:201-213 | A guarded pair yields an O3 row from TOLNet for the nearest city. |
| Ingest.PairRows | Backend/data_ingest.py:201-215 | At most one row per pair. Every row is O3 in molecules/cm³ from TOLNet. |
| Ingest.PairRowsCorrected | Backend/data_ingest.py:201-215 | With the column names and no failing pair, every guarded pair is stored. |
| Ingest.PairRowsAsWritten | Backend/data_ingest.py:203-215 | With the keywords as written, no pair is stored. |
| Ingest.DatasetRows | Backend/data_ingest.py:180-222 | A dataset fails the ingest if and only if it is not a dictionary. Its rows are TOLNet O3 rows. |
| Ingest.DatasetsRows | Backend/data_ingest.py:179-222 | The loop fails if and only if the first dataset is not a dictionary while `dataset_id` is unbound. |
| Ingest.IngestTolnet | Backend/data_ingest.py:154-240 | Success is the negation of failure, the count is the stored rows, and a failed listing gives the failure result. |
| Ingest.TolnetReadsTenDatasets | Backend/data_ingest.py:179 | Datasets after the tenth play no part. |
| Ingest.DatasetsAsWritten | Backend/data_ingest.py:179-222 | With the keywords as written, no dataset yields a row. |
| Ingest.TolnetAsWrittenStoresNothing | Backend/data_ingest.py:154-240 | As written, TOLNet stores nothing and reports 0 records. |
| Ingest.DaymetDates | Backend/data_ingest.py:445-462 | The dates run from the start, a day at a time, through the end. |
| Ingest.DaymetRecord | Backend/data_ingest.py:450-458 | Each simulated record holds the day's `datetime` under `datetime_utc`. |
| Ingest.CityWeather | Backend/data_ingest.py:385-408 | A city's rows are a prefix of its days, each under the day's naive date. |
| Ingest.WeatherRows | Backend/data_ingest.py:371-408 | At most one row per city and day. |
| Ingest.IngestWeather | Backend/data_ingest.py:353-426 | The weather ingest always succeeds, counting the stored rows, at most one per city and day. |
| Ingest.DaymetRecordNotEncodable | Backend/data_ingest.py:398 | `json.dumps` refuses every simulated record, since it holds a `datetime`. |
| Ingest.WeatherAsWrittenStoresNothing | Backend/data_ingest.py:385-417 | As written, the weather ingest succeeds with 0 records. |
| Ingest.WeatherRowsNothing | Backend/data_ingest.py:385-408 | As written, no city stores a weather row. |
| Ingest.CityWeatherAll | Backend/data_ingest.py:385-401 | With encodable records, a city stores one row per day. |
| Ingest.WeatherRowsAll | Backend/data_ingest.py:371-401 | With encodable records, every city stores one row per day. |
| Ingest.WeatherCount | Backend/data_ingest.py:378-401 | With encodable records, the count is the cities times `days_back + 1`, or 0 for a negative look-back. |
| Ingest.IngestAll | Backend/data_ingest.py:95-152 | The total is the sum of the source counts. A disabled source is not run. |
| Ingest.AsWrittenTotalIsZero | Backend/data_ingest.py:95-152 | As written, a whole run reports 0 records whatever the APIs answer. |
| Ingest.DefaultRunWeather | Backend/data_ingest.py:67-80 | With encodable records, the built-in configuration stores 16 weather rows: two cities, eight days each. |
| NormalizedData.Put | Backend/data_ingest.py:581-596 | Adding a row creates its city and bucket when missing and writes its parameter's reading. |
| NormalizedData.PutFrame | Backend/data_ingest.py:581-596 | Adding a row touches only its own bucket and entry. |
| NormalizedData.Group | Backend/data_ingest.py:577-596 | The measurement loop attaches no weather. |
| NormalizedData.GroupBuckets | Backend/data_ingest.py:577-590 | A bucket exists if and only if some row has that city and instant. |
| NormalizedData.GroupParameters | Backend/data_ingest.py:577-596 | A bucket holds a parameter if and only if some row has that city, instant and parameter. |
| NormalizedData.GroupLastWins | Backend/data_ingest.py:592-596 | A parameter's entry is that of the last row with its city, instant and parameter. |
| NormalizedData.AttachOne | Backend/data_ingest.py:599-612 | A weather record changes no keys and no measurements. It sets the weather of its own bucket only. |
| NormalizedData.Attach | Backend/data_ingest.py:599-612 | The weather loop changes no keys and no measurements. |
| NormalizedData.AttachUnmatched | Backend/data_ingest.py:603 | A bucket that no weather record matches keeps its weather. |
| NormalizedData.AttachLastWins | Backend/data_ingest.py:603-612 | A bucket's weather is the last record of its city and instant. |
| NormalizedData.CityOrder | Backend/data_ingest.py:581-582 | The cities are listed once each, exactly the cities of the rows. |
| NormalizedData.CitiesAreBucketKeys | Backend/data_ingest.py:577-618 | The listed cities are exactly those with buckets. |
| NormalizedData.GroupCitiesNonEmpty | Backend/data_ingest.py:581-590 | Every city has a bucket. |
| NormalizedData.GetNormalizedData | Backend/data_ingest.py:536-619 | Corrected: success, with every selected row counted in the total, and only the requested city when one is given. |
| NormalizedData.ListedCitiesAreDataKeys | Backend/data_ingest.py:614-619 | The listed cities are the data's keys, each once. |
| NormalizedData.GetNormalizedDataAsWritten | Backend/data_ingest.py:547-629 | As written, the query names a missing attribute, so the result is the empty failure. |
| Forecaster.SortByDate | Backend/ml_model.py:42 | Sorting permutes the rows into date order. |
| Forecaster.FrameRowComplete | Backend/ml_model.py:50-63 | A frame row is complete exactly when the deepest look-back, 24 rows, stays inside the series. |
| Forecaster.FrameRowKnown | Backend/ml_model.py:44-60 | A complete row holds exactly the features defined directly on the series. |
| Forecaster.DropNaKeeps | Backend/ml_model.py:63 | `dropna` keeps complete rows, in order. |
| Forecaster.PreparedFeatures | Backend/ml_model.py:36-65 | Feature preparation drops exactly the first 24 rows in date order. Every remaining row holds the series-defined features. |
| Forecaster.LagIsEarlierValue | Backend/ml_model.py:50-60 | Lag k is the value k rows earlier in date order. The differences are the changes over 1 and 24 rows. |
| Forecaster.PreparedRow | Backend/ml_model.py:36-65 | Prepared row i describes position i + 24 of the sorted series. |
| Forecaster.RollingIsWindowMean | Backend/ml_model.py:54-56 | A rolling feature is the mean of the trailing window. |
| Forecaster.RollingWithinBounds | Backend/ml_model.py:54-56 | A rolling feature lies within any bounds on the values. |
| Forecaster.FeatureColumnMembership | Backend/ml_model.py:101-103 | A column is a feature if and only if it is a frame column and not excluded. |
| Forecaster.FeatureColumnsAreTheDerivedOnes | Backend/ml_model.py:101-103 | The feature columns are the sixteen derived ones, in the order they were added. |
| Forecaster.Select | Backend/ml_model.py:105 | Selection succeeds if and only if every column is numeric, and it reads each one. |
| Forecaster.SelectFeatureColumns | Backend/ml_model.py:105 | Selecting the feature columns reads the feature vector. |
| Forecaster.LoadModel | Backend/ml_model.py:154-172 | A model loads if and only if its file exists and reads. Loading sets the model and columns; otherwise the state is unchanged. |
| Forecaster.TestSize | Backend/ml_model.py:109-111 | The test part has ceil(0.2 n) rows. |
| Forecaster.Split | Backend/ml_model.py:109-111 | The earlier rows train and the latest ceil(0.2 n) rows test, together making up the frame. |
| Forecaster.MeanAbsoluteError | Backend/ml_model.py:127 | The mean absolute error is non-negative. |
| Forecaster.TrainModel | Backend/ml_model.py:67-152 | A refused training leaves the state and files unchanged. A successful one leaves a trained, valid state. |
| Forecaster.TrainingGuards | Backend/ml_model.py:82-111 | Training succeeds if and only if at least 100 rows were found. Training uses the earlier prepared rows and testing the latest. |
| Forecaster.SecondGuardUnreachable | Backend/ml_model.py:82-99 | 100 rows leave at least 76 prepared rows, so the 50-row guard never fires. |
| Forecaster.HeldRow | Backend/ml_model.py:220-244 | The prediction row has all lags and windows. |
| Forecaster.HeldRowIsConstantHistory | Backend/ml_model.py:229-244 | The prediction row is what feature preparation gives when the series stayed at the latest value. |
| Forecaster.ClampAtZero | Backend/ml_model.py:253 | `max(0, x)` is non-negative, at least x, and one of the two. |
| Forecaster.HalfWidth | Backend/ml_model.py:252 | The half-width squared is 1.96² times the variance of the predictions. |
| Forecaster.SingleValueHasNoSpread | Backend/ml_model.py:252 | One prediction has variance 0. |
| Forecaster.Interval | Backend/ml_model.py:252-254 | The one-row interval is [max(0, p), p]. |
| Forecaster.HoursUpTo | Backend/ml_model.py:262 | The forecast hours are 1..h. |
| Forecaster.Predict | Backend/ml_model.py:174-265 | A model is tried from file only while untrained. The state stays valid and is unchanged when no model is found. |
| Forecaster.PredictNeedsModel | Backend/ml_model.py:179-181 | Without a trained or loadable model, prediction raises and nothing changes. |
| Forecaster.PredictNeedsMoreThanWarmup | Backend/ml_model.py:192-209 | Fewer than 25 recent rows always raise. |
| Forecaster.ForecastShape | Backend/ml_model.py:212-265 | One prediction and interval per hour 1..h. Each prediction is the model's value on the held row, the accuracy is absent, and the rows used are the prepared ones. |
| Forecaster.TrainedModelIsReused | Backend/ml_model.py:179-181 | Once trained or loaded, predicting ignores the model files, even for another city or parameter. |
| Forecaster.TrainedColumnsSelect | Backend/ml_model.py:103-105 | The stored columns select the held row's full feature vector. |
| Schemas.ParameterOf | Backend/schemas.py:9-13 | The parameter enum accepts exactly its three value strings. |
| Schemas.SourceOf | Backend/schemas.py:15-18 | The source enum accepts exactly `openaq` and `tempo`. |
| Schemas.TextField | Backend/schemas.py:22 | A text field is accepted if and only if it is a string within the length bounds. A missing field is reported as missing. |
| Schemas.ParameterField | Backend/schemas.py:23 | A parameter field is accepted if and only if it spells a member. The default applies when it is absent. |
| Schemas.SourceField | Backend/schemas.py:27 | A source field is accepted if and only if it spells a member. The default applies when it is absent. |
| Schemas.ToInt | Backend/schemas.py:45 | A number is read as an integer if and only if it is whole. |
| Schemas.BoundedIntField | Backend/schemas.py:45 | An accepted value reads as an integer within bounds. A missing field takes the default. |
| Schemas.ToReal | Backend/schemas.py:24 | A number is read as itself. Values of other types are refused. |
| Schemas.NonNegativeField | Backend/schemas.py:24 | A value is accepted if and only if it reads as a float of at least 0. |
| Schemas.ToDateTime | Backend/schemas.py:26 | A number of seconds becomes an aware instant within the same second. A datetime is kept. |
| Schemas.DateTimeField | Backend/schemas.py:26 | A date field is accepted if and only if it reads as a datetime. |
| Schemas.TextWithDefault | Backend/schemas.py:63 | A defaulted text field is accepted if and only if it is absent or a string. |
| Schemas.ValidateForecastRequest | Backend/schemas.py:41-45 | An accepted request has a 1-100 character city and 1 to 168 hours. A refused one reports 1 to 3 errors. |
| Schemas.ForecastRequestAcceptedIff | Backend/schemas.py:41-45 | A request is accepted if and only if each field is. A refused one lists every failing field once, in declaration order. |
| Schemas.ForecastRequestDefaults | Backend/schemas.py:44-45 | A body holding only a valid city gets PM2.5 and 24 hours. |
| Schemas.HoursAheadAcceptedIff | Backend/schemas.py:45 | An integer `hours_ahead` is accepted if and only if it is in 1..168, and is otherwise reported too small or too large. |
| Schemas.ParameterAcceptedIff | Backend/schemas.py:44 | A string parameter is accepted if and only if it is PM2.5, O3 or NO2. |
| Schemas.CleanerParametersAccepted | Backend/schemas.py:9-13 | Of the cleaner's canonical names, every one except HCHO is accepted. |
| Schemas.ForecastRequestIgnoresExtraKeys | Backend/schemas.py:41-45 | Keys that are not fields do not change the validation. |
| Schemas.ValidateMeasurement | Backend/schemas.py:20-31 | An accepted measurement has a 1-100 character city and a value of at least 0, and defaults to OpenAQ. A refused one reports 1 to 6 errors. |
| Schemas.MeasurementAcceptedIff | Backend/schemas.py:20-31 | A measurement is accepted if and only if each of its six fields is. A refused one lists every failing field once, in order. |
| Schemas.CleanedBody | Backend/schemas.py:20-27 | A cleaned record is posted with exactly the six schema fields. |
| Schemas.CleanedMeasurementAccepted | Backend/schemas.py:20-31 | A cleaned record within the length bounds, with a value of at least 0, passes if and only if its parameter is not HCHO and its source is `openaq` or `tempo`. |
| Schemas.UtcNow | Backend/schemas.py:64 | The default timestamp is the naive clock reading. |
| Schemas.ValidateHealth | Backend/schemas.py:61-65 | Absent fields take `ok`, the clock and `1.0.0`. |
| Schemas.HealthDefaults | Backend/schemas.py:61-65 | The empty health body is accepted with the three defaults. |
| Text.StripMiddle | Backend/utils/data_processor.py:76-79 | `strip` returns the contiguous middle of the text, and everything cut away is whitespace. |
| Text.StripEmptyIffAllSpace | Backend/utils/data_processor.py:84 | A stripped field is empty if and only if it was all whitespace. |
| Text.StripIdempotent | Backend/utils/data_processor.py:76-79 | Stripping twice is stripping once. |
| Text.Lower | Backend/utils/data_processor.py:141 | Lower-casing maps each character and keeps the length. |
| Stats.MedianIsPercentile50 | Backend/utils/data_processor.py:304 | The median is the 50th percentile. |
| Stats.MeanWithin | Backend/utils/data_processor.py:287 | The mean lies within any bounds on the values. |

## Left out

- I/O is not modelled: HTTP sessions and timeouts, `earthaccess` login, search and download, `xarray` file reading, `time.sleep`, logging, SQLAlchemy sessions, commits and rollbacks, `joblib` files, and directory creation. Their results are parameters.
- The random forest is not modelled: its internals and random seed, `r2_score`, `feature_importances_`, and the `training_samples`/`test_samples` report beyond the split sizes. The regressor's fit and predict are function parameters.
- Configuration loading and the CLI of `data_ingest.py` are not modelled. The configuration is a value.
- The simulated Daymet readings (`np.random`) are a parameter.
- `get_parameter_info` of the OpenAQ client is not modelled, because it returns the decoded response unchanged.
- The Pandora, TOLNet and AirNow clients of `nasa_data_client.py` are not modelled, because they return empty lists. Only their part in the merge is modelled.
- MeasurementResponse, ForecastResponse, IngestResponse, ErrorResponse, OpenAQData and TEMPOData are not modelled, because they are plain typed containers without constraints.
- Floating point is not modelled: IEEE doubles, rounding and NaN are modelled as `real`, so `value * factor`, means and variances are exact, and a NaN value (which every comparison refuses) does not arise.
- Text.LowerChar, Text.UpperChars: case mapping covers ASCII and Latin-1 only, where Python's `str.lower`/`str.upper` cover all of Unicode. This affects unit keys, `NormalizeParameterName` and both OpenAQ parameter maps for names outside Latin-1.
- Py.Timestamp: instants are whole seconds, dropping microseconds. The window bounds of the cleaner, `floor('H')` and the isoformat keys are therefore exact only for whole-second inputs.
- Forecaster.SortByDate: the sort is stable. `sort_values` uses an unstable quicksort, so rows with equal dates may come out in another order, which changes the lag and rolling features.
- OpenAqClient.CityNames: a truthy `city` that is not a string is read as a failure, giving the empty listing. Python lists it, and sorts it when the names compare.
- OpenAqClient.GetAvailableCities: inherits the same restriction on non-string names.
- Ingest.DatasetRows: a series that is not a list is read as empty, where `zip` would iterate a string's characters or a dictionary's keys.
- NormalizedData.GetNormalizedData: buckets are keyed by epoch seconds in a map. The isoformat text of the keys and the insertion order of the per-city dictionaries are not kept. The listed cities keep their order of first appearance.
- Schemas.ToDateTime: a number above 2e10 is read as milliseconds by pydantic; here it is read as seconds. Fractional seconds are dropped.
- Schemas: parsing integers, floats and dates from strings is abstract. The parsers are a parameter.
- Aggregation.AggregateMeasurements: pandas' `mean` skips NaN values; here every value is a number.

## Findings

| source | as written | input that shows it | evidently intended | confidence | as-written member | corrected member |
|---|---|---|---|---|---|---|
| Backend/utils/data_processor.py:238-260 | `detect_outliers` runs the detector over the values of one parameter, then indexes the whole list with the resulting positions | records [q:1, p:1, p:1, p:1, p:100], rule "iqr": the detector flags position 3 (the 100), and the record at list position 3 (a `1`) is flagged | flag the record at that position among the parameter's own records | not executed | Outliers.DetectOutliersMisattributes | Outliers.ByRankJudgesOwnValue |
| Backend/data_ingest.py:203-213 | `Measurement(...)` is given `datetime_utc`, `latitude`, `longitude` and `raw_data`, which are not columns, so the constructor raises and the handler skips the row | any item or pair that passes its guard: nothing is stored, and the source reports success with 0 records | use the table's columns (`date_utc`) and leave out the others | not executed | Ingest.OpenAqAsWrittenStoresNothing | Ingest.ItemRowsCorrected |
| Backend/data_ingest.py:203-213 | the same keywords in the TOLNet loop | any dataset holding both series with a guarded pair: no row is stored | as above | not executed | Ingest.PairRowsAsWritten | Ingest.PairRowsCorrected |
| Backend/data_ingest.py:553-579 | `get_normalized_data` filters on `Measurement.datetime_utc`, which the model does not have, so the query raises | any stored rows: the result is `success: False` with empty data | filter and key on `date_utc` | not executed | NormalizedData.GetNormalizedDataAsWritten | NormalizedData.GetNormalizedData |
| Backend/data_ingest.py:398 | `json.dumps(record)` is given the record from `_fetch_daymet_data`, which holds a `datetime` under `datetime_utc`, so it raises for each city's first record | the built-in configuration with `days_back` 7: the ingest reports success with 0 records, where 16 are evidently meant | encode with `default=str`, or store the record without the `datetime` | not executed | Ingest.WeatherAsWrittenStoresNothing | Ingest.WeatherCount |
