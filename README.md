# Service directory: a Dafny model

The service directory is a Django application. It keeps a directory of
organisations and their services. Each is tagged with categories and
keywords and placed at a GeoDjango point. The system offers:

- an admin site where organisations are edited, with a form field that
  takes coordinates as `"latitude,longitude"` text;
- spreadsheet import of keywords and organisations, which rejects rows
  naming countries, categories or keywords that do not exist yet;
- a REST API whose views are:
  - the home-page category/keyword groups;
  - keywords filtered by category name;
  - a lookup of organisations by keyword text and distance from a point,
    answered by a search engine;
  - a report of incorrect information about a service.

  As the repository stands, its files do not load together. `views.py`
  imports three serializers that `serializers.py` does not define, and
  `urls.py` routes to a `ServiceSendSMS` view that `views.py` does not
  define. `urls.py` also has the lookup and report routes commented out.
  The model follows the text of each view as written, not the routing.

This project models the logic in those pieces, module by module:

| module | file of the system | what it holds |
|---|---|---|
| `Common` | — | `Option` and `Result` |
| `Text` | — | Python `str.split`, `str.join`, unicode `strip()`, decimal numerals |
| `Seqs` | — | list comprehensions (`Filter`, `MapSeq`) and an ascending sort |
| `Geo` | — | points (`x` longitude, `y` latitude, srid) and the `"lat,lng"` reader all three callers share |
| `Models` | `api/models.py` | the records, their `__unicode__`, the comma-joined name lists, the country-area label |
| `SearchIndexes` | `api/search_indexes.py` | the category ids the organisation index stores |
| `Serializers` | `api/serializers.py` | the organisation summary built as an `OrderedDict` |
| `ImportExport` | `api/admin_import_export.py` | the point widget and the reference checks of `import_obj` |
| `FormData` | both form files | cleaned data and errors, `clean_location_coords`, the override step |
| `AdminModelForms` | `api/admin_model_forms.py` | the admin form: a class whose `Clean` updates its maps |
| `Forms` | `api/forms.py` | the public form, the same shape with the other guard |
| `Views` | `api/views.py` | home-page groups, keyword list, service lookup, report endpoint |

The model's parameters stand in for what it cannot see:

- Python's `float()` is a parameter `parseFloat: string -> Option<real>`.
- Python's `str()` of a float is a parameter `formatFloat`.
- The search engine is a parameter: a function from the query the lookup
  builds to the ordered list of hits.
- The report serializer's validation is a parameter.
- Names looked up in the database are finite sets of existing names.

## Model

| member | source | states |
|---|---|---|
| `Geo.ParseLatLng` | service_directory/api/admin_import_export.py:14-17 | a parsed point has srid 4326 |
| `Geo.ParseLatLngNeedsOneComma` | service_directory/api/admin_import_export.py:14 | text without exactly one comma never parses (the two-name unpacking fails) |
| `Geo.ParseLatLngPair` | service_directory/api/admin_import_export.py:14-17 | `lat + "," + lng` parses exactly when both pieces are numbers, to `Point(lng, lat, 4326)` |
| `Geo.ParseLatLngAccepted` | service_directory/api/admin_import_export.py:13-24 | every accepted text is two pieces around one comma, the first read as `y`, the second as `x` |
| `ImportExport.PointWidgetClean` | service_directory/api/admin_import_export.py:12-24 | succeeds exactly when the text parses, and then holds the parsed point, with srid 4326 and one comma in the text; a failure carries the widget's message |
| `ImportExport.PointWidgetCleanOfPair` | service_directory/api/admin_import_export.py:14-17 | a cell `"lat,lng"` with two numbers cleans to `Point(lng, lat, 4326)` |
| `ImportExport.PointWidgetRender` | service_directory/api/admin_import_export.py:26-27 | the latitude's text, one comma, the longitude's text; with comma-free numbers it splits back into exactly those two pieces, latitude first |
| `ImportExport.PointWidgetRoundTrip` | service_directory/api/admin_import_export.py:26-27 | `clean(render(p)) == p`: render writes `y,x` and clean reads latitude first, so the swap cancels |
| `ImportExport.CheckNames` | service_directory/api/admin_import_export.py:46-61 | passes exactly when the requested names are a subset of the existing ones; otherwise reports the non-empty `requested - existing` |
| `ImportExport.ImportKeyword` | service_directory/api/admin_import_export.py:45-69 | rejects exactly when some comma-split category name does not exist, reporting the keyword's name and exactly the missing names; otherwise delegates |
| `ImportExport.ImportOrganisation` | service_directory/api/admin_import_export.py:86-159 | countries first, then categories, then keywords: the first failing check decides the error and its subject; delegates exactly when all three pass |
| `ImportExport.NameSetOfJoin` | service_directory/api/admin_import_export.py:46-48 | the name set of a comma-joined cell is exactly the set of its pieces |
| `ImportExport.ImportKeywordIgnoresOrderAndRepeats` | service_directory/api/admin_import_export.py:46-58 | two cells listing the same names in any order, with any repeats, give the same outcome |
| `ImportExport.ImportKeywordWithoutCategoriesColumn` | service_directory/api/admin_import_export.py:47 | a row without a categories column is rejected exactly when no category is named `''`, and then `{''}` is missing |
| `FormData.CleanLocationCoords` | service_directory/api/admin_model_forms.py:24-39 | absent or empty input comes back unchanged; other text succeeds exactly when it parses, to a point with srid 4326; failure carries the form's message (the same code is service_directory/api/forms.py:20-35) |
| `FormData.CleanLocationCoordsOfPair` | service_directory/api/admin_model_forms.py:28-31 | `"lat,lng"` with two numbers cleans to `Point(lng, lat, 4326)` |
| `FormData.AfterCoordsHook` | service_directory/api/admin_model_forms.py:32-38 | on success the hook's value (the point, or the text unchanged) is stored and the errors are kept; a raised error removes the cleaned value and appends the message to the field's errors; no other field changes |
| `FormData.Override` | service_directory/api/admin_model_forms.py:51-60 | `location` becomes the point and has no error; every other cleaned value and error is untouched |
| `FormData.OverrideIdempotent` | service_directory/api/admin_model_forms.py:51-60 | overriding twice with one point is overriding once |
| `AdminModelForms.AdminCleaned` | service_directory/api/admin_model_forms.py:41-60 | overrides exactly when the coordinates are a point that differs from the saved location; otherwise the state is left as it was |
| `AdminModelForms.AdminCleanedIdempotent` | service_directory/api/admin_model_forms.py:41-60 | cleaning twice is cleaning once |
| `AdminModelForms.AdminKeepsLocationErrorForSavedCoords` | service_directory/api/admin_model_forms.py:48-49 | coordinates equal to the saved location leave a location error in place (the public form drops it) |
| `AdminModelForms.AdminTypedCoordsReplaceLocation` | service_directory/api/admin_model_forms.py:24-60 | new `"lat,lng"` text, field hook then `clean`: the location is `Point(lng, lat)` and the errors are the old ones without `location` |
| `AdminModelForms.OrganisationModelForm.CleanLocationCoordsField` | service_directory/api/admin_model_forms.py:24-39 | the form's maps become the outcome of the hook on the old maps |
| `AdminModelForms.OrganisationModelForm.Clean` | service_directory/api/admin_model_forms.py:41-60 | the form's maps become `AdminCleaned` of the old maps and the instance's location |
| `Forms.PublicCleaned` | service_directory/api/forms.py:37-48 | overrides whenever the coordinates are a point, even the saved one; otherwise the state is left as it was |
| `Forms.PublicCleanedIdempotent` | service_directory/api/forms.py:37-48 | cleaning twice is cleaning once |
| `Forms.PublicCoordsWin` | service_directory/api/forms.py:42-48 | with a point in the coordinates, the location is that point and there is no location error |
| `Forms.OrganisationModelForm.CleanLocationCoordsField` | service_directory/api/forms.py:20-35 | the form's maps become the outcome of the hook on the old maps |
| `Forms.OrganisationModelForm.Clean` | service_directory/api/forms.py:37-48 | the form's maps become `PublicCleaned` of the old maps |
| `Models.DisplayIsName` | service_directory/api/models.py:10-11 | country, organisation, category and keyword display as their name, unchanged (also lines 51-52, 59-60, 71-72) |
| `Models.CountryDisplay` | service_directory/api/models.py:10-11 | the country's name; stated in `Models.DisplayIsName` |
| `Models.OrganisationDisplay` | service_directory/api/models.py:51-52 | the organisation's name; stated in `Models.DisplayIsName` |
| `Models.CategoryDisplay` | service_directory/api/models.py:59-60 | the category's name; stated in `Models.DisplayIsName` |
| `Models.KeywordDisplay` | service_directory/api/models.py:71-72 | the keyword's name; stated in `Models.DisplayIsName` |
| `Models.FormatNames` | service_directory/api/models.py:74-78 | `', '.join`: empty for no names; each name at its offset, `", "` after every name but the last, and nothing else (the length) |
| `Models.KeywordFormattedCategories` | service_directory/api/models.py:74-78 | no categories give `""`; each category name at its offset in related-manager order, `", "` after every name but the last, and the length of exactly that |
| `Models.ServiceFormattedCategories` | service_directory/api/models.py:98-103 | the service's categories: no categories give `""`; each name at its offset, `", "` after every name but the last, and the length of exactly that |
| `Models.ServiceFormattedKeywords` | service_directory/api/models.py:105-110 | the service's keywords: no keywords give `""`; each name at its offset, `", "` after every name but the last, and the length of exactly that |
| `Models.ChoiceLabel` | service_directory/api/models.py:18-26 | a label exactly when some choice has the value, and then it is the label of the last such choice, as `dict(choices)` keeps the last pair for a repeated value |
| `Models.CountryAreaDisplay` | service_directory/api/models.py:29-32 | the text is `name`, ` (`, the level label, ` in `, the country's name, `)` at fixed offsets, so each part reads back |
| `Models.LevelDisplay` | service_directory/api/models.py:30 | `get_level_display()`: the choice label, else `str(level)`; stated in `Models.LevelDisplayOfChoices` and `Models.LevelDisplayOutsideChoices` |
| `Models.LevelDisplayOfChoices` | service_directory/api/models.py:18-23 | levels 1 to 4 display their `AREA_LEVELS` label |
| `Models.LevelDisplayOutsideChoices` | service_directory/api/models.py:26-31 | any other level displays as `str(level)`, the shortest numeral, which reads back as the level |
| `Models.LevelDisplayInjective` | service_directory/api/models.py:18-31 | distinct levels never display alike |
| `Models.CountryAreaDisplayDistinguishesLevels` | service_directory/api/models.py:29-32 | two areas with one name and country display alike only at the same level |
| `Seqs.Sort` | service_directory/api/search_indexes.py:19 | `order_by('pk')` in the model: ascending, a permutation, no repeats created |
| `SearchIndexes.PrepareCategories` | service_directory/api/search_indexes.py:15-20 | ascending; a permutation of the category ids (same multiset and length); every id present and nothing else; no repeats when the ids are distinct; empty for no categories |
| `SearchIndexes.PrepareCategoriesStrictlyAscending` | service_directory/api/search_indexes.py:15-20 | with distinct category ids the list is strictly ascending |
| `Serializers.Assign` | service_directory/api/serializers.py:42-49 | `d[key] = value`: an existing key keeps its place, a new one goes last, the key reads back the value, other keys keep theirs |
| `Serializers.AssignKeepsKeysUnique` | service_directory/api/serializers.py:42-49 | assignment never repeats a key |
| `Serializers.ToRepresentation` | service_directory/api/serializers.py:41-51 | exactly the keys id, name, address, keywords, distance in order; the first three copied; the keyword names in order and of the same number; the distance or null |
| `Serializers.SummaryAssignments` | service_directory/api/serializers.py:42-49 | the five assignments into an empty `OrderedDict`, each of a new key, leave exactly those five entries in assignment order |
| `Views.HomePageGroups` | service_directory/api/views.py:25-49 | the groups are one filter of the categories (shown, with a shown keyword) followed by the grouping, so they keep query order |
| `Views.HomePageGroupsAsOneFilter` | service_directory/api/views.py:26-44 | show-on-home-page filter, grouping, drop of empty groups equals one filter then the grouping |
| `Views.HomePageGroupsSound` | service_directory/api/views.py:40-44 | every group has keywords and is the group of a shown category |
| `Views.HomePageGroupsComplete` | service_directory/api/views.py:26-44 | every shown category with a shown keyword has its group |
| `Views.GroupKeywordsAreShown` | service_directory/api/views.py:26-38 | each name in a group is a shown keyword of that category |
| `Views.MatchingRows` | service_directory/api/views.py:70-71 | a keyword gets join rows exactly when one of its categories is listed |
| `Views.JoinRows` | service_directory/api/views.py:70-71 | every row is a keyword having a listed category, and there are at least as many rows as such keywords |
| `Views.KeywordListAsWritten` | service_directory/api/views.py:65-73 | no parameter: every keyword; otherwise exactly the keywords having a listed category, with no promise about repeats |
| `Views.KeywordList` | service_directory/api/views.py:65-73 | no parameter: every keyword; otherwise exactly the keywords having a listed category, without repeats when the keywords have none |
| `Views.JoinRowsMembers` | service_directory/api/views.py:70-71 | the join returns the intended keywords and no others |
| `Views.KeywordListSameMembers` | service_directory/api/views.py:65-73 | the code as written and the intended list hold the same keywords |
| `Views.JoinRowsWithoutOverlap` | service_directory/api/views.py:70-71 | with at most one listed category per keyword, the join equals the intended list |
| `Views.KeywordListAsWrittenRepeats` | service_directory/api/views.py:70-71 | a keyword in two listed categories comes back twice as written, once as intended |
| `Views.LookupQuery` | service_directory/api/views.py:92-133 | no query exactly when `near` is present and its stripped text does not parse; distance and ordering exactly when `near` is present; a text match exactly for a non-empty stripped keyword |
| `Views.LookupQueryNearPair` | service_directory/api/views.py:95-100 | `near=lat,lng` measures from `Point(lng, lat, 4326)` |
| `Views.LookupQueryNearMalformed` | service_directory/api/views.py:95-97 | a `near` without exactly one comma gives the server error |
| `Views.FormatDistance` | service_directory/api/views.py:146-148 | `str` of the whole kilometres (no leading zeros), `.`, the two digits of the hundredths, `km`; both numbers read back |
| `Views.FormatDistanceInjective` | service_directory/api/views.py:148 | different distances never print alike |
| `Views.DistanceText` | service_directory/api/views.py:138-148 | a distance text exactly for hits with a distance |
| `Views.Instances` | service_directory/api/views.py:138-148 | one instance per hit, in order: the hit's object, with the distance text exactly when the hit has a distance |
| `Views.Summaries` | service_directory/api/views.py:150-153 | one summary per instance, in order, each the summary `to_representation` promises |
| `Views.ServiceLookup` | service_directory/api/views.py:91-155 | a server error exactly when the query cannot be built; otherwise `min(20, #hits)` summaries, the `i`th of the `i`th hit with its distance text, so no hits give `[]` |
| `Views.ReportOutcome` | service_directory/api/views.py:173-192 | 404 exactly for an unknown service, 400 with the errors exactly for an invalid payload, 201 with the report otherwise |
| `Views.ReportStore.Post` | service_directory/api/views.py:173-192 | returns `ReportOutcome`; the report list grows by the report only on 201, otherwise nothing is saved |

## Left out

- Floating point. `float()` and Python's `str` of a float are parameters of the model.
- `ImportExport.PointWidgetRoundTrip`: stated only for numbers whose text reads back as the same number and holds no comma. It is about the coordinate order; Python 2's float precision in `render` is not modelled.
- `Views.FormatDistance`: takes the distance in whole hundredths of a kilometre, so the rounding of `'{0:.2f}'.format(distance.km)` is not modelled.
- The search engine (Elasticsearch through Haystack) is an oracle: fuzzy matching, geo-distance computation and the order of hits are its business. The model keeps the first twenty hits in the order it yields them.
- The Google Analytics `Tracker` call in `ServiceLookup` is network I/O and is left out.
- Database name lookups compare names exactly. The case-insensitive text fields of the migrations are not modelled.
- Query parameters are a map from name to value, as `query_params[name]` reads them. A repeated parameter's other values are not modelled.
- `views.py` imports `ServiceSummarySerializer`, `ServiceSerializer` and `ServiceIncorrectInformationReportSerializer`, which `serializers.py` does not define. `ServiceSerializer` and `ServiceIncorrectInformationReportSerializer` are commented out there; `ServiceSummarySerializer` does not appear at all. The lookup is therefore modelled with `OrganisationSummarySerializer` over the organisations the hits carry. The report serializer's validation is a parameter.
- The lookup and report routes are commented out in `urls.py`, so as the repository stands neither view is reachable. The model states what the views do when called.
- `Organisation` carries `categories` and `keywords` sequences that `models.py` does not declare on it (lines 35-52). They stand for what the serializer (`serializers.py:47`) and the search index (`search_indexes.py:19`) read through the organisation. Their relation to the services and through models behind them is not modelled.
- `ServiceDetail` is a generic retrieve view with no logic of its own and is left out.
- The report endpoint's `int(kwargs.pop('pk'))` is a natural number. The commented-out route pattern `(?P<pk>[0-9]+)` would admit only digits; a non-numeric `pk` is not modelled.
- Django's form pipeline is given, not modelled. The base `clean()` is the state the model's `Clean` starts from. Of `_clean_fields`, only the storing of the `location_coords` hook's outcome is modelled (`FormData.AfterCoordsHook`).
- `FormData.CleanLocationCoords` takes the character field's text, absent or present. Other kinds of input cannot reach it.
- Point equality in the admin form compares coordinates only (`FormData.SameLocation`), as GEOS `equals_exact` did in the Django of this system. Three-dimensional points are not modelled.
- The import error's message text is modelled as its parts: the record kind, the identifying cell and the set of missing names. Python's rendering of a set inside the message is not modelled.
- The related managers' order is taken to be the order of the sequences in the records. The join rows of the keyword filter are in keyword order; SQL leaves that order to the database.
- `Text.Strip` removes Python 2's unicode whitespace characters. Unicode normalisation is not modelled.
- Migrations, admin registrations, URL routing, settings and the middleware are declarations or configuration and are left out.

## Findings

| source | as written | input that shows it | evidently intended | confidence | as-written member | corrected member |
|---|---|---|---|---|---|---|
| service_directory/api/views.py:70-71 | `Keyword.objects.filter(categories__name__in=category_list)` without `distinct()` gives one row per matching category | a keyword in categories `a` and `b`, requested with `?category=a&category=b`, is listed twice | each keyword having a listed category, listed once | medium, not executed | `Views.KeywordListAsWrittenRepeats` | `Views.KeywordList` |
