# job-assistant core, modelled in Dafny

job-assistant is a Flask application that helps job seekers. It reads uploaded
résumés, extracts skills and contact details, compares two résumés, parses job
descriptions, searches a job table, asks a language model for analyses,
interview questions and self-introductions, renders résumés through five PDF
templates and an HTML exporter, and sells memberships. Around the plumbing
(Flask, SQLite, HTTP, reportlab) sits a set of deterministic decisions on
strings, lists and small state machines. This project models those decisions
and proves what the code promises about them.

Modules, one per source file plus shared helpers:

- `Text`, `Json`, `Wrappers`: Python `str` operations (`strip`, ASCII `lower`, `in`, `split`, `join`, slicing, `int()`), JSON values without floats, `Option` and `Result`.
- `Resume`: the résumé record, with optional fields that mirror `dict.get(key, default)`. It also holds `convert_resume_to_dict`.
- `Config`: `load_user_config`, `save_user_config` and `get_api_config`. The configuration file is a small class whose contents the save replaces.
- `FileParser`: the extension whitelist, extension dispatch to abstract extractors, contact and name extraction, the skill sweep, and the position ranking.
- `Comparator`: `ResumeComparator`. Skill partition, integer scores with Python's round-half-even, experience years, education bonuses, recommendations.
- `DateFormat`: `format_date`. The PDF and HTML exporters define it twice with identical text (utils/pdf_exporter.py:113-129 and utils/doc_exporter.py:7-23), so one definition serves both. `Resume.ConvertToDict` likewise models both copies of `convert_resume_to_dict` (utils/pdf_exporter.py:1167-1193 and utils/doc_exporter.py:26-52).
- `PdfElements`, `PdfModern`, `PdfBusiness`, `PdfCreative`, `PdfClassic`, `PdfCompact`, `PdfExporter`: each template's `build_content` as a sequence of elements (paragraph with a style and text, table row, spacer, rule), built by methods that append step by step as the source does. The model proves section order, caps, truncation and chunking, and the registry's fallback.
- `HtmlExport`: `HTMLExporter.generate`, which grows the page with `+=` loops. It also models `html.escape`.
- `JobClient`, `JdParser`: `MockJobClient.search_jobs` and `get_hot_jobs` over the job table, and `parse_jd`, with regular expressions written as leftmost-match functions.
- `AiClient`, `QuestionBank`, `Analyzer`: the usage statistics as a class with `chat`'s update and the reset, the layered reply parser, default payloads, the client singleton, and the twelve-question guard.
- `Payment`: the product catalogue, order numbers, nonces, payment parameters, notification and activation, and the service singleton.
- `AppRoutes`: the decisions inside the route handlers. The three tables are a `Database` class whose upload and delete methods change them.

The HTTP reply, JSON decoding, the clock, random draws, MD5, the file system and the database lookups are all parameters. Each of them is named in the member's signature.

## Model

| member | source | states |
|---|---|---|
| `Config.LoadUserConfig` | config.py:14-22 | the stored object when the file holds one, and `{}` when the file is missing or unreadable |
| `Config.ConfigStore.Save` | config.py:25-33 | true exactly when the object was written; a written file then holds exactly that object, a file that cannot be opened is left as it was, and a dump that fails part-way leaves an unreadable file |
| `Config.DefaultApiConfig` | config.py:51-57 | the default settings are not custom and carry the environment's key, or the empty string |
| `Config.ResolveApiConfig` | config.py:36-57 | the settings are custom exactly when the saved `api_key` is non-empty |
| `Config.GetApiConfig` | config.py:36-57 | the settings read from the file are custom exactly when the file holds a non-empty `api_key`, and are otherwise the defaults |
| `Config.SavedKeyWins` | config.py:41-48 | with a non-empty saved key, that key is used as it is, and the environment's key makes no difference at all |
| `Config.SavedValuesKeptEvenIfEmpty` | config.py:43-46 | each saved base URL, model and provider is used when present, even when empty; only an absent one takes its default |
| `Config.NoSavedKeyUsesDefaults` | config.py:50-57 | a missing file, an unreadable file or a file without a non-empty key all give the default settings |
| `Config.SaveThenLoad` | config.py:25-48 | once settings with a key are saved, `get_api_config` returns them field by field, with defaults for absent fields, and marks them custom |
| `DateFormat.ParseWith` | utils/pdf_exporter.py:121-123 | `%Y` parses exactly a four-digit year other than 0000, as January; `%Y<sep>%m` parses exactly such a year, the separator and a month `1`–`9`, `01`–`09` or `10`–`12`, with that month; the year is the text's first four digits |
| `DateFormat.ParseFirst` | utils/pdf_exporter.py:121-126 | the result is that of one of the formats; no result means that none of the formats parses |
| `DateFormat.Strftime` | utils/pdf_exporter.py:124 | a printed date is always `YYYY.MM` |
| `DateFormat.FormatsInOrder` | utils/pdf_exporter.py:121 | the formats are tried in the order `%Y-%m`, `%Y/%m`, `%Y.%m`, `%Y` |
| `DateFormat.FormatDateCases` | utils/pdf_exporter.py:113-129 | an empty date stays empty; an ongoing marker becomes `至今`; a date whose stripped text some format reads is printed as `Strftime` of the first such parse; a date no format reads is kept stripped |
| `DateFormat.FormatDateIgnoresPadding` | utils/pdf_exporter.py:113-117 | a padded date is normalised exactly like its stripped text, and an all-blank date gives `""` |
| `DateFormat.FormatDate` | utils/pdf_exporter.py:113-129 | an empty date stays empty; any result is `至今`, a `YYYY.MM` date, or the stripped input (the value in each case is in FormatDateCases) |
| `DateFormat.StrftimeOfTexts` | utils/pdf_exporter.py:123-124 | printing a parsed year and month gives back the year's digits and the month padded to two |
| `DateFormat.FormatYearMonth` | utils/pdf_exporter.py:113-124 | a date `YYYY-M`, `YYYY/MM`, `YYYY.M` and so on is rewritten `YYYY.MM` |
| `DateFormat.FormatYear` | utils/pdf_exporter.py:121-124 | a bare year becomes January of that year |
| `DateFormat.FormatDateIdempotent` | utils/pdf_exporter.py:113-129 | normalising a date a second time changes nothing |
| `DateFormat.OngoingIsFixed` | utils/pdf_exporter.py:118-119 | `至今` is its own normal form |
| `DateFormat.KeptIsFixed` | utils/pdf_exporter.py:127 | a stripped text that no format reads is returned unchanged |
| `DateFormat.StrftimeIsFixed` | utils/pdf_exporter.py:121-124 | a printed date reads back as the same printed date |
| `DateFormat.YearOfStrftime` | utils/pdf_exporter.py:124 | the printed year reads back as the same year |
| `DateFormat.LowercasePresentIsKept` | utils/pdf_exporter.py:118 | the ongoing markers are case-sensitive: `present` is kept as it is |
| `DateFormat.MonthThirteenIsKept` | utils/pdf_exporter.py:121-127 | month 13 is not a date, so `2024-13` is kept as it is |
| `Resume.ConvertToDict` | utils/pdf_exporter.py:1167-1193 | an object becomes a record with all eighteen keys holding its attributes or their defaults; a dict is returned as it is; anything else becomes the empty record |
| `FileParser.AllowedFile` | utils/file_parser.py:26-31 | a file is accepted exactly when its name has a `.` and the lowered text after the last `.` is one of the seven whitelisted extensions |
| `FileParser.GetFileExtension` | utils/file_parser.py:34-38 | `''` for a name without `.`; otherwise the lowered text after the last `.`, which holds no `.` itself |
| `FileParser.AllowedIffExtensionWhitelisted` | utils/file_parser.py:26-38 | `allowed_file` holds exactly when `get_file_extension` is whitelisted |
| `FileParser.ExtractorFor` | utils/file_parser.py:43-55 | PDF only for `pdf`; Word for `docx` and `doc`; OCR for `jpg`, `jpeg` and `png`; plain text for `txt` and for every extension off the whitelist |
| `FileParser.ParseResume` | utils/file_parser.py:41-58 | the text is what the chosen extractor yields, and `""` when that extractor raises |
| `FileParser.UnlistedExtensionReadsAsText` | utils/file_parser.py:54-55 | a file whose extension is not whitelisted, including one without a `.`, is read as plain text |
| `FileParser.PhoneIndex` | utils/file_parser.py:127-128 | the leftmost position at or after the start where `1[3-9]\d{9}` matches, with no match before it |
| `FileParser.RunEnd` | utils/file_parser.py:133 | a greedy character-class run stops at the first character outside the class |
| `FileParser.DomainFrom` | utils/file_parser.py:133 | the backtracking domain ends at the last dot of the domain run that is followed by two or more letters, or there is no such dot |
| `FileParser.EmailEndAt` | utils/file_parser.py:133 | a match at a position is the regular expression's match there (greedy local part up to `@`, the last usable dot, the longest run of TLD letters) and holds an `@`; no match exactly when the pattern cannot match there |
| `FileParser.SplitFollowsRuns` | utils/file_parser.py:133 | any way of matching the pattern at a position ends its local part at the end of the local run, and its dot inside the domain run |
| `FileParser.EmailFrom` | utils/file_parser.py:133-134 | the result is empty exactly when the pattern matches nowhere at or after the start; otherwise it is the match at the leftmost position where the pattern matches, and it holds an `@` |
| `FileParser.FirstPhone` | utils/file_parser.py:127-130 | the phone is empty exactly when no position matches; otherwise it is the eleven characters at the leftmost match |
| `FileParser.FirstEmail` | utils/file_parser.py:133-136 | `findall(...)[0]`: the leftmost match of the email pattern in the text, or `""` when there is none |
| `FileParser.FirstLineName` | utils/file_parser.py:139-141 | the name is the stripped text's first line, itself stripped; it holds no line break |
| `FileParser.ExtractContactInfo` | utils/file_parser.py:118-144 | the phone, email and name are the leftmost phone match, the leftmost email match and the stripped first line; the name is empty exactly when the text is blank; no `@` gives no email; the phone is empty exactly when no phone number matches |
| `FileParser.NoAtSignNoEmail` | utils/file_parser.py:133-136 | a text without `@` reports no email |
| `FileParser.NameEmptyIffBlankText` | utils/file_parser.py:139-141 | the name is empty exactly when the whole text is whitespace |
| `FileParser.ExtractWorkExperience` | utils/file_parser.py:146-190 | the section patterns are never applied, so every list is empty whatever the text |
| `FileParser.SkillSet` | utils/file_parser.py:198-220 | a keyword is reported exactly when it is in the vocabulary and its lowered form occurs in the lowered text |
| `FileParser.Distinct` | utils/file_parser.py:222 | `list(set(...))` holds each element once and exactly the elements of the input |
| `FileParser.ExtractSkills` | utils/file_parser.py:193-222 | the loop reports each mentioned vocabulary keyword once, and nothing else |
| `FileParser.LongerKeywordImpliesShorter` | utils/file_parser.py:217-220 | matching is by substring, so a found keyword brings along every vocabulary keyword it contains |
| `FileParser.MySqlImpliesSql` | utils/file_parser.py:206-220 | a text that mentions `MySQL` is also reported with `SQL` |
| `FileParser.JavaScriptImpliesJava` | utils/file_parser.py:200-220 | a text that mentions `JavaScript` is also reported with `Java` |
| `FileParser.SpringBootImpliesSpring` | utils/file_parser.py:204-220 | a text that mentions `Spring Boot` is also reported with `Spring` |
| `FileParser.MatchedSkills` | utils/file_parser.py:247 | the matched skills are those of the input found in the category, compared exactly and case-sensitively |
| `FileParser.Candidates` | utils/file_parser.py:241-248 | every category with at least two matches yields its suggestion, and every suggestion comes from such a category |
| `FileParser.Insert` | utils/file_parser.py:251 | one insertion step of the stable sort is a permutation |
| `FileParser.SortByScore` | utils/file_parser.py:251 | the sort is a permutation of its input |
| `FileParser.InsertSorted` | utils/file_parser.py:251 | insertion keeps a list sorted by descending score |
| `FileParser.InsertStable` | utils/file_parser.py:251 | insertion puts the new element after every element with the same score |
| `FileParser.SortByScoreSorted` | utils/file_parser.py:251 | the result is ordered by descending score |
| `FileParser.SortByScoreStable` | utils/file_parser.py:251 | for each score, the suggestions with that score keep their table order |
| `FileParser.CollectCandidates` | utils/file_parser.py:241-248 | the loop collects exactly the qualifying categories' suggestions, in table order |
| `FileParser.SortSuggestions` | utils/file_parser.py:250-251 | the sorted list is ordered by descending score and is a permutation of the input |
| `FileParser.SuggestJobPositions` | utils/file_parser.py:225-253 | at most five suggestions, the qualifying categories ranked by score with ties in table order; the work-experience argument is unused |
| `FileParser.SuggestionsQualify` | utils/file_parser.py:241-253 | every suggestion comes from a qualifying category, with that category's score and matches |
| `FileParser.FewQualifyingAllSuggested` | utils/file_parser.py:241-253 | when at most five categories qualify, every one of them is suggested |
| `Comparator.RoundDiv` | utils/comparator.py:78-79 | Python's `round` of an exact quotient: within half of it, and even on a tie |
| `Comparator.RoundDivMonotone` | utils/comparator.py:214 | rounding never reverses the order of two quotients with the same divisor |
| `Comparator.RoundDivExact` | utils/comparator.py:214 | a quotient that is already whole rounds to itself |
| `Comparator.CleanSkills` | utils/comparator.py:62-63 | the skill set holds exactly the stripped, non-blank entries of the list |
| `Comparator.StrippedNonBlank` | utils/comparator.py:62-63 | the stripped non-blank entries, listed in input order, are exactly the members of the skill set |
| `Comparator.ListIn` | utils/comparator.py:73-77 | a set listed once per member, holding exactly the set's members that the given order mentions |
| `Comparator.SkillScore` | utils/comparator.py:69-70 | the skill sub-score is `50 + 50·|own ∩ other| / max(|own|, 1)` rounded half to even: within half of it and even on a tie; it lies in [50, 100], is 50 for an empty own set and 100 for a non-empty own set contained in the other |
| `Comparator.SkillStrengths` | utils/comparator.py:80-83 | the two unique-skill lines appear exactly when either resume has a skill the other lacks |
| `Comparator.SkillWeaknesses` | utils/comparator.py:84-86 | the overlap line appears exactly when both resumes list skills |
| `Comparator.CompareSkillSets` | utils/comparator.py:60-87 | common, only-1 and only-2 are the intersection and the two differences; common and only-1 partition resume 1's set; the scores are each side's skill score; the strengths are the two unique-skill lines and the weakness the overlap line |
| `Comparator.CompareSkills` | utils/comparator.py:60-87 | the skill sets are the two résumés' cleaned skill lists, split into their intersection and two differences; the scores are each side's skill score in [50, 100]; a résumé compared with itself has no unique skills |
| `Comparator.CompareSkillsIsSetComparison` | utils/comparator.py:60-87 | `_compare_skills` is the set comparison of the two cleaned skill lists, with its unique-skill and overlap texts |
| `Comparator.CompareSkillsWithItself` | utils/comparator.py:60-87 | a resume compared with itself has no unique skills, no strengths, and a score of 100 when it has skills |
| `Comparator.YearText` | utils/comparator.py:137 | the year text holds at most four characters and no `-`, and is the first four characters when the date has no `-` |
| `Comparator.ExpYears` | utils/comparator.py:127-152 | never negative; 0 for an empty start or a start year that does not parse; ongoing and empty ends count as 2025; a dated end counts its year less the start year, or 0 when negative or when the end year does not parse |
| `Comparator.YearTextBranchesAgree` | utils/comparator.py:137 | both branches of the conditional read the first four characters before the first `-` |
| `Comparator.TotalYears` | utils/comparator.py:97-98 | the summed years are never negative |
| `Comparator.Companies` | utils/comparator.py:94-95 | a company is listed exactly when some entry holds it as a non-empty company, and there are never more than the entries |
| `Comparator.ExperienceScore` | utils/comparator.py:103-104 | `min(100, 10·years + 5·achievements)`: within [0, 100] and never above the uncapped sum |
| `Comparator.CompareExperience` | utils/comparator.py:89-125 | the entry counts, years, achievements and companies of both résumés; each score is `min(100, 10·years + 5·achievements)` of its résumé; two strengths and two weaknesses, which are `""` placeholders unless resume 1 has under three years or under two achievements |
| `Comparator.DegreeBonus` | utils/comparator.py:190-196 | as written, the degree bonus is 0, 15 or 20 |
| `Comparator.SchoolBonus` | utils/comparator.py:198-201 | the school bonus is 0 or 10 |
| `Comparator.EntryBonus` | utils/comparator.py:189-201 | one entry adds at most 30, with the corrected degree and school tests |
| `Comparator.SumBonus` | utils/comparator.py:189-201 | the entries add at most 30 each |
| `Comparator.EducationScore` | utils/comparator.py:182-203 | corrected `_edu_score` (the keyword tests of the Findings fixed) lies in [50, 100], and is 50 exactly when there is no education |
| `Comparator.EduScore` | utils/comparator.py:182-203 | corrected: the accumulating loop computes the corrected education score |
| `Comparator.SumBonusAsWritten` | utils/comparator.py:185-202 | as written, the degree and school bonuses with the lowered keyword tests add at most 30 per entry |
| `Comparator.EducationScoreAsWritten` | utils/comparator.py:182-203 | `_edu_score` exactly as written lies in [50, 100], and is 50 exactly when there is no education |
| `Comparator.EducationScoreDiffersOnPhd` | utils/comparator.py:190-196 | one `PhD` entry without a school scores 60 as written and 80 corrected |
| `Comparator.DegreeBonusIgnoresEnglishTitles` | utils/comparator.py:190-196 | on lowered text only `博士` and `硕士` can earn a degree bonus |
| `Comparator.EnglishPhdEarnsNothing` | utils/comparator.py:190-192 | `PhD` earns no degree bonus as written |
| `Comparator.MitEarnsNothing` | utils/comparator.py:198-201 | `MIT` earns no school bonus |
| `Comparator.IntendedDegreeBonus` | utils/comparator.py:190-196 | corrected: the degree bonus with keywords compared in the text's own case is 0, 15 or 20 |
| `Comparator.IntendedDegreeBonusCountsPhd` | utils/comparator.py:191-192 | corrected: a degree naming `PhD` earns the doctorate bonus |
| `Comparator.IntendedSchoolBonus` | utils/comparator.py:198-201 | corrected: the school bonus with keywords compared in the name's own case is 0 or 10 |
| `Comparator.IntendedSchoolBonusCountsMit` | utils/comparator.py:199-201 | corrected: a school named `MIT` earns the school bonus |
| `Comparator.Schools` | utils/comparator.py:159-160 | a school is listed exactly when some entry holds it as a non-empty school |
| `Comparator.Degrees` | utils/comparator.py:162-163 | a degree is listed exactly when some entry holds it as a non-empty degree |
| `Comparator.EducationStrength` | utils/comparator.py:176-177 | a resume's education strength is `""` exactly when it has no education; otherwise it starts with its `简历N: ` tag, followed by the first school and the first degree or `未披露` |
| `Comparator.CompareEducation` | utils/comparator.py:154-180 | corrected scores: both scores are the corrected education scores; the schools and degrees are those listed; the strengths are `EducationStrength` of each resume, with tags `简历1: ` and `简历2: `, so the first is `""` exactly when resume 1 has no education, the second exactly when resume 2 has none; the one weakness appears when either resume has none |
| `Comparator.OverallScoreBounds` | utils/comparator.py:205-214 | sub-scores in [0, 100] give an overall score in [0, 100] that does not depend on which resume comes first |
| `Comparator.OverallScoreOfTwins` | utils/comparator.py:205-214 | two resumes with the same sub-scores get their weighted score, rounded half to even |
| `Comparator.OverallScore` | utils/comparator.py:205-214 | the weighted mean 0.3, 0.5, 0.2 of both resumes' sub-scores, rounded: within half of it, and even on a tie |
| `Comparator.Flatten` | utils/comparator.py:257-258 | a skill is swept exactly when some category lists it |
| `Comparator.VocabularyFlattensWeights` | utils/comparator.py:21-28 | sweeping the categories in order visits the whole vocabulary |
| `Comparator.JdSkillSet` | utils/comparator.py:252-262 | a vocabulary skill is a description skill exactly when its lowered form occurs in the lowered description |
| `Comparator.ResumeComparator.constructor` | utils/comparator.py:30-33 | `all_skills` is the union of every category's skills |
| `Comparator.ExtractJdSkills` | utils/comparator.py:252-262 | the loop collects exactly the description's vocabulary skills |
| `Comparator.MentionedIn` | utils/comparator.py:257-260 | the nested loops collect exactly the mentioned skills of the swept categories |
| `Comparator.SkillAdvice` | utils/comparator.py:222-226 | the unique-skill advice has at most two lines, and none exactly when neither resume has unique skills |
| `Comparator.ExperienceAdvice` | utils/comparator.py:228-232 | the tenure and achievement advice is absent exactly when resume 1 has at least resume 2's years and at least two achievements |
| `Comparator.MissingJdSkills` | utils/comparator.py:236-240 | a description skill is missing exactly when the raw skill list lacks it |
| `Comparator.JdAdvice` | utils/comparator.py:234-245 | nothing for an empty description; otherwise at most two lines, none exactly when neither resume misses a description skill |
| `Comparator.RecommendationItems` | utils/comparator.py:220-245 | at most six items before the fallback and the cap |
| `Comparator.Finish` | utils/comparator.py:247-250 | one to five recommendations; the fallback exactly when nothing else applies; otherwise a prefix of the items |
| `Comparator.Recommendations` | utils/comparator.py:216-250 | one to five recommendations, the fallback exactly when no rule applies |
| `Comparator.FallbackOnlyWhenNothingElse` | utils/comparator.py:216-250 | the fallback is given exactly when the cleaned skill sets are equal, resume 1 has enough years and achievements, and the description, if any, asks for nothing either resume lacks |
| `Comparator.UniqueSkillAdvice` | utils/comparator.py:222-226 | no unique-skill advice exactly when the two skill sets are equal |
| `Comparator.MissingEmptyIffCovered` | utils/comparator.py:239-245 | nothing is missing exactly when the raw skill list covers the description skills |
| `Comparator.GenerateRecommendations` | utils/comparator.py:216-250 | the method's appends produce the recommendation list |
| `Comparator.Advise` | utils/comparator.py:220-250 | the appends in source order, then the fallback and the cap of five |
| `Comparator.SkillAndExperienceAdvice` | utils/comparator.py:222-232 | the first four conditional appends give the skill advice followed by the experience advice |
| `Comparator.AppendJdAdvice` | utils/comparator.py:234-245 | the description step appends the description advice to what came before |
| `Comparator.Compare` | utils/comparator.py:35-58 | with the corrected education scores: the three comparisons and their scores; strengths and weaknesses concatenated skill, experience, education and cut to five, the education strengths being `EducationStrength` of each resume; the recommendations; the overall score is `OverallScore` of the six sub-scores and lies in [0, 100] |
| `JobClient.Position` | utils/job_client.py:314-327 | a kept row becomes a position with its id, title and company, posted `3天前`, at `https://example.com/job/` followed by its id |
| `JobClient.VisitFails` | utils/job_client.py:296-327 | a row raises exactly when it has no `company` and the loop reads it: a keyword that misses the title, or a row that passes every filter; otherwise it is kept exactly when it matches |
| `JobClient.Visit` | utils/job_client.py:296-327 | a row raises only `KeyError('company')`, and only without a company; a kept row is the row's position and passes the location and category filters |
| `JobClient.ScanFailureSticks` | utils/job_client.py:294-327 | once the loop has raised, the whole search raises the same way |
| `JobClient.SearchJobs` | utils/job_client.py:289-332 | the loop with its `continue`s and the final slice computes the search |
| `JobClient.ScanFails` | utils/job_client.py:294-327 | the search raises `KeyError('company')` exactly when some row it reaches raises |
| `JobClient.ScanKeeps` | utils/job_client.py:294-327 | a search that does not raise holds exactly the positions of the matching rows; `KeptRows` pairs the k-th position with the k-th matching row in table order, one row per position, and every matching row is among them |
| `JobClient.Scan` | utils/job_client.py:294-327 | a raise is `KeyError('company')` and some row lacks a company; a result never has more positions than rows |
| `JobClient.PageOfResults` | utils/job_client.py:329-332 | for page 1 on, the result is the run of at most `limit` kept positions starting at `(page - 1) * limit` |
| `JobClient.PageZeroIsEmpty` | utils/job_client.py:329-332 | page 0 slices up to index 0 and is always empty |
| `JobClient.KeywordCaseIgnored` | utils/job_client.py:296-302 | the keyword is matched regardless of ASCII case |
| `JobClient.Positions` | utils/job_client.py:314-327 | a complete table gives one position per row, in order |
| `JobClient.ScanUnfiltered` | utils/job_client.py:294-327 | without filters a complete table is kept whole, in order |
| `JobClient.HotJobsFailOnGap` | utils/job_client.py:334-336 | any row without a company makes `get_hot_jobs` raise |
| `JobClient.HotJobs` | utils/job_client.py:334-336 | `get_hot_jobs` returns at most sixteen positions |
| `JobClient.HotJobsFailAsWritten` | utils/job_client.py:239-250 | as written, row 17 stores its company under `公司`, so `get_hot_jobs` raises `KeyError('company')` |
| `JobClient.HotJobsCorrected` | utils/job_client.py:334-336 | corrected: with row 17 under `company`, `get_hot_jobs` returns the first sixteen rows' positions in order |
| `JdParser.WordAt` | utils/job_client.py:355 | an alternation tried at one position yields the first listed word that occurs there, or none when no word does |
| `JdParser.FirstWord` | utils/job_client.py:355 | what `re.search` finds with an alternation: the first listed word at the leftmost position where any word occurs, or none when no word occurs |
| `JdParser.SkipFieldSeparators` | utils/job_client.py:352 | `[：:\s]*` consumes exactly the run of separators |
| `JdParser.LineEnd` | utils/job_client.py:352 | `[^\n]+` stops at the next line break or the end |
| `JdParser.LabelledAt` | utils/job_client.py:352-354 | when text follows the label and its separators, the group is that text up to the line break; there is no group exactly when only line breaks follow the label; a group is non-empty and holds no line break |
| `JdParser.LabelledGroup` | utils/job_client.py:352-360 | the group at the first occurrence of the label where the pattern matches, with no matching occurrence before it; none exactly when no occurrence matches |
| `JdParser.SearchPattern` | utils/job_client.py:351-372 | a labelled pattern yields `LabelledGroup` from the start of the text; a pattern without a group matches exactly when one of its words does, and then has no group 1; the grouped location pattern yields `FirstWord`, the leftmost of its cities |
| `JdParser.ExtractField` | utils/job_client.py:357-361 | the pattern loop with its `break` computes the field, or the failure |
| `JdParser.FieldIsOneLine` | utils/job_client.py:351-386 | a field that is found is one line |
| `JdParser.GroupedFieldsNeverRaise` | utils/job_client.py:381-386 | a list of labelled and grouped patterns, such as the location's, always yields a field |
| `JdParser.FieldRaises` | utils/job_client.py:357-372 | a field raises `IndexError` and nothing else, and only when one of its group-less patterns matches |
| `JdParser.DigitRunEnd` | utils/job_client.py:375 | a greedy `\d+` consumes exactly the run of digits |
| `JdParser.SalarySplitFollowsRuns` | utils/job_client.py:375 | a salary match takes both digit runs whole, so there is at most one at a position |
| `JdParser.SplitIsSalaryText` | utils/job_client.py:375 | a salary match is digits, a dash, digits and a `K` or `万` |
| `JdParser.SalaryEnd` | utils/job_client.py:375 | the end of the salary match at a position, or none exactly when no shape matches there |
| `JdParser.SalaryAt` | utils/job_client.py:375 | the pattern matches at a position exactly when `\d+K-\d+K`, `\d+K-\d+万` or `\d+-\d+K` starts there, and the match is that text |
| `JdParser.SalaryFrom` | utils/job_client.py:375-378 | the salary is the match at the leftmost position where the pattern matches, with no match before it; none exactly when no position matches |
| `JdParser.SkipBlockSeparators` | utils/job_client.py:389 | `[：:\n]*` consumes exactly the run of separators |
| `JdParser.BlockEnd` | utils/job_client.py:389 | the lazy block ends at the first terminator or at `$`, with neither inside it |
| `JdParser.RequirementHead` | utils/job_client.py:389 | as written, the heading is `任职` followed by one character of the class `[要求|资格]` |
| `JdParser.FirstIndex` | utils/job_client.py:389 | the first position from which one of the headings occurs, with none before it |
| `JdParser.BlockStopsAtFirstTerminator` | utils/job_client.py:389-399 | a block occurs in the text, holds no terminator, and is followed by a terminator or the end |
| `JdParser.KeptByIff` | utils/job_client.py:391-395 | the filter keeps exactly the images longer than five characters |
| `JdParser.KeptLinesAre` | utils/job_client.py:391-395 | the kept lines are exactly the stripped lines longer than five characters |
| `JdParser.KeptLinesStripped` | utils/job_client.py:393-395 | every kept line is stripped and longer than five characters; there are no more kept lines than lines |
| `JdParser.KeepLines` | utils/job_client.py:391-395 | the loop keeps the filtered lines of the block, in order |
| `JdParser.PresentAre` | utils/job_client.py:407-419 | the skills are exactly the vocabulary words the text contains, at most one per word and without repeats |
| `JdParser.FindSkills` | utils/job_client.py:417-419 | the loop appends the vocabulary words found in the text, in vocabulary order |
| `JdParser.ParseJd` | utils/job_client.py:338-421 | corrected requirements heading: the method computes the parsed description, or the `IndexError` |
| `JdParser.ParsedJd` | utils/job_client.py:338-421 | corrected requirements heading: a failure is always `IndexError`; the skills are exactly the vocabulary words the text contains, never more than the vocabulary |
| `JdParser.ParsedJdAsWrittenDiffers` | utils/job_client.py:338-421 | `parse_jd` as written and corrected raise in the same cases and agree on every field but the requirements, which are read after the character class or after the whole heading |
| `JdParser.RequirementLinesDiffer` | utils/job_client.py:389-395 | for `任职要求：精通Python开发`, the requirement lines as written are `求：精通Python开发` and corrected `精通Python开发` |
| `JdParser.JdRaisesOnlyOnFallbacks` | utils/job_client.py:351-372 | `parse_jd` raises only `IndexError`, and only when a title word or a company name is found by a pattern without a group |
| `JdParser.UnlabelledTitleField` | utils/job_client.py:351-361 | with no title label, a title word followed by more text on its line makes the title field raise |
| `JdParser.UnlabelledTitleRaises` | utils/job_client.py:351-361 | with no title label, such a title word makes `parse_jd` raise |
| `JdParser.CompanyNameField` | utils/job_client.py:364-372 | with no company label, a listed company name makes the company field raise |
| `JdParser.CompanyNameRaises` | utils/job_client.py:364-372 | once the title is read, an unlabelled company name makes `parse_jd` raise |
| `JdParser.TitleWordAloneRaises` | utils/job_client.py:355-360 | `parse_jd("Python开发工程师")` raises `IndexError` |
| `JdParser.TitleFromLabel` | utils/job_client.py:352-360 | a first line `职位：v` gives the title `v`, whatever follows |
| `JdParser.BlockRunsToEnd` | utils/job_client.py:389 | with no terminator and no final line break, a block runs to the end of the text |
| `JdParser.HeadedText` | utils/job_client.py:389 | the intended pattern reads the text after `任职要求：` or `任职资格：` |
| `JdParser.HeadedTextAsWritten` | utils/job_client.py:389 | as written, the pattern reads from the heading's fourth character |
| `JdParser.AsWrittenBlockAtStart` | utils/job_client.py:389 | as written, after `任职` and one class character, the block starts right away |
| `JdParser.RequirementsHeadingRemnant` | utils/job_client.py:389-391 | as written, the requirements block starts with the heading's leftover `求：` or `格：` ahead of what the intended pattern reads |
| `JdParser.IntendedRequirementsFollowHeading` | utils/job_client.py:389-391 | corrected: the requirements block is the start of the text after the heading |
| `JdParser.IntendedRequirementsTakeAll` | utils/job_client.py:389-391 | corrected: with no terminator and no final line break, the block is the whole text after the heading |
| `JdParser.RequirementsKeepHeadingRemnant` | utils/job_client.py:389-395 | for `任职要求：精通Python开发`, the block as written is `求：精通Python开发`; the corrected one is `精通Python开发` |
| `AiClient.TokenCount` | utils/ai_client.py:66-68 | an absent usage count adds 0, an integer adds itself, a bool adds 0 or 1, and any other value makes the `+=` raise |
| `AiClient.Content` | utils/ai_client.py:70 | a body without `choices`, or with an empty list, yields nothing; any content is `choices[0].message.content`, found along that lookup path |
| `AiClient.ContentOfWellFormedReply` | utils/ai_client.py:70 | a body whose first choice has a message with `content` yields that content, whatever the other keys and choices hold |
| `AiClient.FailedReplyNotCounted` | utils/ai_client.py:62-86 | a reply that is not a 200 with a JSON object leaves the statistics alone and answers None |
| `AiClient.AnsweredReplyCounted` | utils/ai_client.py:62-69 | a counted 200 reply adds one call and exactly its three token counts, absent ones as 0, and stamps the call time |
| `AiClient.CountedWithoutChoices` | utils/ai_client.py:62-70 | a 200 body without `choices` is counted, yet the call answers None |
| `AiClient.RecordedChangesOnlyCounters` | utils/ai_client.py:62-86 | a call adds at most one to the call count and never changes the provider or the model |
| `AiClient.Cleared` | utils/ai_client.py:314-318 | the reset zeroes the four counters and clears the call time; provider and model stay |
| `AiClient.ClearedForgetsCalls` | utils/ai_client.py:311-319 | a reset after a call equals a reset before it, and resetting twice is resetting once |
| `AiClient.ApiStats.constructor` | utils/ai_client.py:8-16 | the statistics start with zero counters, no call time, and empty provider and model |
| `AiClient.ApiStats.Label` | utils/ai_client.py:25-26 | labelling sets the provider and the model and nothing else |
| `AiClient.ApiStats.Record` | utils/ai_client.py:62-86 | recording a reply updates the statistics as `chat` does |
| `AiClient.ApiStats.Reset` | utils/ai_client.py:311-319 | `reset_api_stats` returns the statistics as they were, then clears them |
| `AiClient.Report` | utils/ai_client.py:296-308 | an empty provider or model is replaced by the configured one; every counter, the call time and the custom flag are reported as they are |
| `AiClient.ReportBeforeAnyClient` | utils/ai_client.py:296-301 | before any client labels the statistics, the report names the configured provider and model |
| `AiClient.QuestionsSplitFollowsRuns` | utils/ai_client.py:239 | the part of the pattern after the key takes each run of spaces whole and ends at the first `]` after `[`, so it matches in at most one way |
| `AiClient.QuestionsBrackets` | utils/ai_client.py:239 | the positions of `[` and the closing `]` of the match at a key occurrence, or none exactly when the pattern cannot match there |
| `AiClient.QuestionsGroupAt` | utils/ai_client.py:239 | with the key at a position: the text after `:` and `[` (spaces between) up to the first `]`, or none exactly when the pattern cannot match there |
| `AiClient.QuestionsStart` | utils/ai_client.py:239 | the leftmost key occurrence where the pattern matches, with no match before it; none exactly when it matches nowhere |
| `AiClient.QuestionsGroup` | utils/ai_client.py:239-240 | the group of the match at the leftmost position where the pattern matches; none exactly when it matches nowhere |
| `AiClient.BraceSpan` | utils/ai_client.py:248 | the span runs from the first `{` of the reply to its last `}`, as the leftmost greedy match does; there is none exactly when no `}` follows the first `{` |
| `AiClient.ParseJsonResponse` | utils/ai_client.py:233-254 | the four layers in order: a reply that decodes is returned decoded; else a question group that decodes inside `[...]` is wrapped under `interview_questions`; else a brace span that decodes is returned decoded; else `{}` |
| `AiClient.ParsedComesFromReply` | utils/ai_client.py:233-254 | the result is `{}`, the decoding of the reply or of a piece of it, or the bracketed question group under `interview_questions` |
| `AiClient.NothingDecodesGivesEmpty` | utils/ai_client.py:248-254 | with a decoder that accepts nothing, the result is `{}` |
| `AiClient.PromptSeesOnlyPrefixes` | utils/ai_client.py:88-159 | prompts see only the first 8000 characters of the resume for the analysis, and 6000 of the resume and 4000 of the job description otherwise |
| `AiClient.ShortResumeEmbeddedWhole` | utils/ai_client.py:90-93 | a resume within the limit is embedded whole, right after the prompt's head |
| `AiClient.DefaultPayload` | utils/ai_client.py:256-293 | each use case's default is a JSON object |
| `AiClient.DefaultPayloadKeys` | utils/ai_client.py:256-293 | each default carries exactly the keys its prompt asks the model for |
| `AiClient.DefaultQuestionsHoldOne` | utils/ai_client.py:275-286 | the default question list holds a single question |
| `AiClient.Outcome` | utils/ai_client.py:114-116 | a missing or falsy answer gives the default; a text is parsed; `json.loads` of any other value raises |
| `AiClient.FailedReplyGivesDefault` | utils/ai_client.py:112-116 | a reply that does not get through gives the use case's default |
| `AiClient.Client.constructor` | utils/ai_client.py:22-26 | a new client carries the current settings and matching headers, and labels the statistics with its provider and model |
| `AiClient.Client.UpdateHeaders` | utils/ai_client.py:28-34 | the URL and the authorization header follow the settings |
| `AiClient.Client.RefreshConfig` | utils/ai_client.py:36-41 | refreshing takes the new settings and relabels the statistics |
| `AiClient.Client.Chat` | utils/ai_client.py:43-86 | the request carries the model, the prompt, the temperature and 4000 tokens; the statistics record the reply; the answer is the reply's content |
| `AiClient.Client.Ask` | utils/ai_client.py:88-231 | each use case sends its own prompt and temperature, records the reply, and yields the parsed answer or its default |
| `AiClient.ClientSlot.constructor` | utils/ai_client.py:361 | no client exists at import time |
| `AiClient.ClientSlot.GetAiClient` | utils/ai_client.py:364-371 | the client is created on first use and refreshed afterwards, so it always carries the current settings |
| `QuestionBank.QuestionJson` | utils/analyzer.py:11-17 | each bank entry is shown as an object with exactly the keys type, question, answer_points, sample_answer and tips |
| `QuestionBank.DefaultInterviewQuestions` | utils/analyzer.py:10-102 | the replacement list holds the bank's entries in the bank's order |
| `QuestionBank.DefaultQuestionBankShape` | utils/analyzer.py:10-102 | the bank holds thirteen questions with answer points, grouped by type from the self-introduction to the open questions |
| `Analyzer.CheckedQuestions` | utils/analyzer.py:161-166 | an answer that is not an object makes `.get` raise |
| `Analyzer.CheckedQuestionsAtLeastTwelve` | utils/analyzer.py:161-166 | a checked answer has at least twelve questions and keeps every other key as it was |
| `Analyzer.CheckedQuestionsKeepsLongAnswers` | utils/analyzer.py:163-166 | the answer is kept unchanged exactly when it already has at least twelve questions |
| `Analyzer.CheckedQuestionsIdempotent` | utils/analyzer.py:161-166 | checking twice is checking once |
| `Analyzer.FailedReplyGivesBank` | utils/analyzer.py:159-166 | without an answer from the model, the client's one-question default is replaced by the thirteen-question bank |
| `Analyzer.SuggestedPositions` | utils/file_parser.py:225-253 | `analyze` proposes at most five posts, ranked by score, each from a qualifying category with that category's score and matches |
| `Analyzer.ResumeAnalyzer.constructor` | utils/analyzer.py:108-109 | the analyzer holds the client `get_ai_client` hands out, carrying the current settings |
| `Analyzer.ResumeAnalyzer.Analyze` | utils/analyzer.py:111-133 | the result holds the contact details and the distinct skills found in the text, the posts suggested for those skills, and the model's analysis or its default; the statistics record the reply |
| `Analyzer.ResumeAnalyzer.MatchWithJd` | utils/analyzer.py:135-146 | the result is the client's match answer or its default |
| `Analyzer.ResumeAnalyzer.GenerateInterviewQuestions` | utils/analyzer.py:148-166 | the result is the client's answer after the twelve-question guard, so a result always has at least twelve questions |
| `Analyzer.ResumeAnalyzer.GenerateSelfIntroduction` | utils/analyzer.py:168-179 | the result is the client's introduction or its default |
| `Payment.Products` | utils/payment_service.py:32-51 | exactly the product types 1, 2 and 3 are in the catalogue |
| `Payment.CatalogueLevels` | utils/payment_service.py:32-51 | both cards give the professional level and the lifetime plan the premium level; a longer membership never costs less |
| `Payment.ZeroPad` | utils/payment_service.py:110 | the padded number is all digits and exactly as wide as asked when it fits |
| `Payment.CompactStampDigits` | utils/payment_service.py:110 | `%Y%m%d%H%M%S` of a real date and time is fourteen digits |
| `Payment.OrderNoFormat` | utils/payment_service.py:108-112 | an order number is `JA` and eighteen digits, twenty characters in all |
| `Payment.OrderNoRoundTrip` | utils/payment_service.py:108-112 | the time stamp and the random number are read back from the order number |
| `Payment.OrderNo` | utils/payment_service.py:108-112 | an order number starts with `JA` |
| `Payment.NonceAlphabetIsLowerAlnum` | utils/payment_service.py:172 | the nonce alphabet is exactly the lower-case ASCII letters and the digits |
| `Payment.NonceStr` | utils/payment_service.py:170-173 | a nonce is 32 characters, each the alphabet's character at that draw |
| `Payment.NonceStrInjective` | utils/payment_service.py:170-173 | different draws give different nonces |
| `Payment.NewService` | utils/payment_service.py:53-57 | a missing configuration reads as empty, and each present section is taken as it is |
| `Payment.PrepayId` | utils/payment_service.py:154-156 | the prepay id is `wx` followed by the whole order number |
| `Payment.WechatParams` | utils/payment_service.py:114-162 | the package names the prepay id `wx` plus the order number, the sign type is RSA, the app id comes from the WeChat section, and the signature is the MD5 of the signing text |
| `Payment.AlipayParams` | utils/payment_service.py:142-168 | the order string names the Alipay app id, the order number and the abstract `alipayTotal` amount |
| `Payment.PackageNamesOrder` | utils/payment_service.py:134-156 | the order number is read back from the WeChat package |
| `Payment.CreateOrder` | utils/payment_service.py:59-106 | an unknown product is rejected with its message; otherwise the order carries a new order number, the catalogue name and price, and the WeChat parameters for that order number exactly for pay type 0, its Alipay parameters otherwise; the WeChat prepay id is `wx` and the order number |
| `Payment.CreateOrderIgnoresUser` | utils/payment_service.py:59-106 | the user id does not affect the result |
| `Payment.HandleNotify` | utils/payment_service.py:175-199 | the callback is always acknowledged and echoes the order and transaction, empty when absent |
| `Payment.Activate` | utils/payment_service.py:201-250 | a missing order and a paid order are refused with their messages, an order of an unknown product raises, and a success carries the product's level, name and expiry |
| `Payment.ActivationFailsOnlyOnUpdate` | utils/payment_service.py:224-244 | a found unpaid order of a catalogue product fails exactly when the update fails |
| `Payment.StubPaymentActivatesMonthCard` | utils/payment_service.py:252-275 | with the stubbed lookup and update every payment activates a thirty-day professional membership |
| `Payment.HandlePaymentSuccess` | utils/payment_service.py:201-244 | with the stubs, every payment succeeds for its own order number at membership level 1 |
| `Payment.QueryOrder` | utils/payment_service.py:277-297 | a found order is returned, otherwise the missing-order message |
| `Payment.ServiceSlot.constructor` | utils/payment_service.py:301 | no service exists at import time |
| `Payment.ServiceSlot.GetPaymentService` | utils/payment_service.py:304-309 | the first call's configuration builds the service; later calls return it and ignore their configuration |
| `AppRoutes.DeleteOrderKeepsReferences` | app.py:318-333 | deleting the analyses, then the job descriptions, then the résumé leaves no row referring to a missing one after any of the three statements |
| `AppRoutes.ResumeFirstWouldDangle` | app.py:318-333 | deleting the résumé first would leave its job description referring to a missing row, so the order of the three statements matters |
| `AppRoutes.FileType` | app.py:113 | the file type holds no dot, and a name without a dot is its own type |
| `AppRoutes.Stem` | app.py:358 | the stem, a dot and the file type give back the name |
| `AppRoutes.TextPreview` | app.py:126 | a text of at most 500 characters is shown whole; a longer one as its first 500 characters and `...` |
| `AppRoutes.UploadCheck` | app.py:83-92 | a missing part, an empty name and a disallowed extension are refused with their messages; otherwise the name passes |
| `AppRoutes.Database.constructor` | app.py:19-61 | the three tables start empty and the first résumé id is 1 |
| `AppRoutes.Database.UploadResume` | app.py:80-131 | a refused check or a blank text changes nothing and answers its message; a success inserts exactly one row with the next id, the safe name, its type, the text and the skills found in it, and previews the text |
| `AppRoutes.Database.DeleteResume` | app.py:318-333 | the résumé's analyses, job descriptions and the résumé itself are removed, every other row stays in order |
| `AppRoutes.Database.FindResume` | app.py:344-345 | a row is found with the asked id, and none only when no row has it |
| `AppRoutes.ExportTemplate` | app.py:351-355 | the template is one of modern, business and creative, and the requested one when it is one of them |
| `AppRoutes.ExportNeverClassicOrCompact` | app.py:354-355 | through this route the classic and compact templates are never used |
| `AppRoutes.ExportDefaults` | app.py:357-366 | the record starts with the eight keys, named after the stored file's stem |
| `AppRoutes.ExportRecord` | app.py:357-373 | stored data that is absent or does not decode leaves the defaults; decoded data goes through `dict.update`; no default key is ever lost |
| `AppRoutes.UpdatePair` | app.py:371 | a pair element of `dict.update` is a two-character string or a two-element list with a string key; numbers, booleans and `None` raise |
| `AppRoutes.UpdatePairs` | app.py:371 | reading the pairs left to right never loses a key |
| `AppRoutes.Update` | app.py:371 | `dict.update`: an object merges its keys over the dictionary; `[]` and `""` change nothing; a number, boolean, `None` or non-empty string raises; no key is lost |
| `AppRoutes.PairListLastWins` | app.py:371 | for a list of string pairs the update succeeds, each key takes the value of its last pair, and the keys no pair names keep their values |
| `AppRoutes.StoredDataOverridesDefaults` | app.py:368-371 | stored data wins key by key; keys it does not have keep the default |
| `AppRoutes.ExportResume` | app.py:335-383 | a missing résumé is refused; otherwise the export fails exactly when the stored data fails `dict.update`, with that error; an export uses the template chosen from the request, carries the exported record, and is named `resume_<id>_<template>.pdf` |
| `AppRoutes.MaskKey` | app.py:469 | the mask is empty exactly for an empty key, and otherwise the key's first ten characters and `****` |
| `AppRoutes.MaskShowsOnlyPrefix` | app.py:469 | keys that agree in their first ten characters mask alike, and a mask is at most fourteen characters |
| `AppRoutes.ConfigInfoOf` | app.py:463-473 | the page sees the configuration with the key masked |
| `AppRoutes.SettingsToSave` | app.py:509-532 | an empty key is refused; otherwise the four stripped fields are stored, an empty URL, model or provider replaced by its default |
| `AppRoutes.SavedSettingsTakeEffect` | app.py:502-540 | after a save the configuration in force is the custom one with the saved key and no empty field |
| `AppRoutes.SaveApiConfig` | app.py:502-545 | an empty key and a failed test write nothing and answer their messages; a failed write answers its message; a success stores the settings and leaves the shared client on the saved configuration |
| `AppRoutes.WithoutApiSettings` | app.py:555-559 | the reset drops exactly the four API keys and keeps every other stored setting |
| `AppRoutes.ResetRestoresDefaults` | app.py:548-570 | after a reset is written, the default configuration is in force again |
| `HtmlExport.Escape` | utils/doc_exporter.py:224-225 | escaping never shortens the text |
| `HtmlExport.EscapeHasNoMarkup` | utils/doc_exporter.py:224-225 | no `<`, `>`, `"` or `'` survives escaping |
| `HtmlExport.UnescapeEscape` | utils/doc_exporter.py:224-225 | escaping loses nothing: decoding the character references gives the text back |
| `HtmlExport.EscapePlain` | utils/doc_exporter.py:224-225 | a text without `&`, `<`, `>`, `"` and `'` is left as it is |
| `HtmlExport.FormatWorkItem` | utils/doc_exporter.py:292-305 | one work entry's fragment, with its inner loop over the achievements |
| `HtmlExport.WorkItemIgnoresLaterAchievements` | utils/doc_exporter.py:302-304 | achievements after the third never reach the page |
| `HtmlExport.WorkHtml` | utils/doc_exporter.py:291-305 | the loop's text is the entries' fragments in list order |
| `HtmlExport.AddIntro` | utils/doc_exporter.py:273-279 | the introduction section is written exactly when the introduction is non-empty |
| `HtmlExport.AddSkills` | utils/doc_exporter.py:281-288 | the skills section is added exactly when there are skills |
| `HtmlExport.AddWork` | utils/doc_exporter.py:290-312 | the work section is added exactly when there is work experience |
| `HtmlExport.AddProjects` | utils/doc_exporter.py:314-333 | the project section is added exactly when there are projects |
| `HtmlExport.AddEducation` | utils/doc_exporter.py:335-353 | the education section is added exactly when there is education |
| `HtmlExport.AddCertificates` | utils/doc_exporter.py:355-362 | the certificate section is added exactly when there are certificates |
| `HtmlExport.AddAwards` | utils/doc_exporter.py:364-371 | the award section is added exactly when there are awards |
| `HtmlExport.RenderSections` | utils/doc_exporter.py:273-371 | the body is the shown sections' fragments in the order `generate` writes them |
| `HtmlExport.SectionOrder` | utils/doc_exporter.py:273-371 | the section titles are those of the non-empty fields, in the order introduction, skills, work, projects, education, certificates, awards |
| `HtmlExport.Generate` | utils/doc_exporter.py:222-380 | the `+=` chain builds exactly the page of the record |
| `HtmlExport.PageFrame` | utils/doc_exporter.py:227-380 | whatever the record, the page starts with the doctype and ends by closing the html element |
| `HtmlExport.Page` | utils/doc_exporter.py:222-380 | the page of any record starts with the doctype and ends by closing the html element |
| `HtmlExport.ContactBlockShowsFields` | utils/doc_exporter.py:264-268 | each contact field sits in the contact block as given |
| `HtmlExport.ContactsVerbatim` | utils/doc_exporter.py:264-268 | the phone, e-mail and location reach the page without escaping |
| `PdfElements.Shorten` | utils/pdf_exporter.py:321-323 | a description within the limit is kept; a longer one is cut to the limit and `...` appended |
| `PdfElements.Bullets` | utils/pdf_exporter.py:327-328 | one paragraph per entry |
| `PdfElements.BulletsEach` | utils/pdf_exporter.py:327-328 | the `k`-th bullet is the `k`-th entry behind its prefix |
| `PdfElements.AppendBullets` | utils/pdf_exporter.py:427-428 | the loop appends one paragraph per entry, in order, behind what was already there |
| `PdfElements.AppendItems` | utils/pdf_exporter.py:293-295 | the loop appends each item's elements and a spacer, in order |
| `PdfElements.AppendChunks` | utils/pdf_exporter.py:563-567 | the `range(0, len, n)` loop appends one line per chunk of `n` entries |
| `PdfElements.ChunksPartition` | utils/pdf_exporter.py:563-567 | the chunks are non-empty, at most `n` long, and give back the list in order |
| `PdfElements.ChunksCount` | utils/pdf_exporter.py:563-567 | there are `ceil(len / n)` chunks |
| `PdfElements.Contacts` | utils/pdf_exporter.py:196-202 | at most three contacts, and none exactly when phone, e-mail and location are all empty |
| `PdfElements.Header` | utils/pdf_exporter.py:183-217 | the header holds at most the name, the job title and the contact line, and always ends with a spacer and a rule; a set name comes first; with contacts, the `" | "`-joined contact line comes just before the spacer |
| `PdfElements.HeaderHasNoTitles` | utils/pdf_exporter.py:183-217 | the header holds no paragraph in a section-title style |
| `PdfElements.OptionalTitle` | utils/pdf_exporter.py:246-265 | an optional section shows its title exactly when it is added |
| `PdfElements.TitlesStep` | utils/pdf_exporter.py:246-265 | adding an optional section adds its title, when added, after the titles already there |
| `PdfExporter.Lookup` | utils/pdf_exporter.py:1108-1114 | exactly the five ids are registered, each for the template of that id |
| `PdfExporter.RegistryComplete` | utils/pdf_exporter.py:1108-1114 | every template is registered under its own id |
| `PdfExporter.ExporterFor` | utils/pdf_exporter.py:1126 | a registered id picks its template, any other id the modern one |
| `PdfExporter.ExportStory` | utils/pdf_exporter.py:1124-1129 | the story rendered is the picked exporter's content for the record |
| `PdfExporter.UnknownIdRendersModern` | utils/pdf_exporter.py:1126-1128 | an id the registry does not know renders exactly as the modern template |
| `PdfExporter.Describe` | utils/pdf_exporter.py:1133-1164 | each listed template previews under its own id |
| `PdfExporter.AvailableTemplatesMatchRegistry` | utils/pdf_exporter.py:1131-1165 | the listed templates are the five registered ones, each once, in registry order |
| `PdfModern.SkillsTextIgnoresTail` | utils/pdf_exporter.py:280-283 | skills past the tenth never show: long lists that agree on their first ten give the same line, ending in `...` |
| `PdfModern.FormatWorkItem` | utils/pdf_exporter.py:299-330 | the steps build exactly the work item's elements |
| `PdfModern.WorkItemCaps` | utils/pdf_exporter.py:317-328 | a work item has at most six elements and one body paragraph of at most 503 characters |
| `PdfModern.WorkItemTexts` | utils/pdf_exporter.py:299-330 | outside the small style, a work item holds only its shortened description, when it has one |
| `PdfModern.AddWorkExperience` | utils/pdf_exporter.py:289-297 | the work section is its title and each entry's item and spacer, in order |
| `PdfModern.ProjectItemShape` | utils/pdf_exporter.py:342-371 | a project item always starts with its title row and has at most four elements |
| `PdfModern.ProjectItemIgnoresLaterTech` | utils/pdf_exporter.py:362-363 | technologies past the eighth never show in a project item |
| `PdfModern.ProjectItemTexts` | utils/pdf_exporter.py:342-371 | outside the small style, a project item holds only its description cut at 300 characters, when it has one |
| `PdfModern.AddProjectExperience` | utils/pdf_exporter.py:332-340 | the project section is its title and each entry's item and spacer, in order |
| `PdfModern.EducationItemTexts` | utils/pdf_exporter.py:383-408 | outside the small style, an education item holds no paragraph |
| `PdfModern.AddEducation` | utils/pdf_exporter.py:373-381 | the education section is its title and each entry's item and spacer, in order |
| `PdfModern.AddAwards` | utils/pdf_exporter.py:421-430 | the loop builds exactly the award section |
| `PdfModern.AwardsCap` | utils/pdf_exporter.py:421-430 | no awards give no section; otherwise a title, at most five awards and a spacer |
| `PdfModern.CertificatesIgnoreTail` | utils/pdf_exporter.py:414-417 | certificates past the sixth never show |
| `PdfModern.BuildContent` | utils/pdf_exporter.py:241-267 | the story is the header followed by each section whose field is set |
| `PdfModern.SectionOrder` | utils/pdf_exporter.py:241-267 | the section titles are those of the non-empty fields, in the order introduction, skills, work, projects, education, certificates, awards |
| `PdfBusiness.WorkDateLine` | utils/pdf_exporter.py:479-484 | the position and dates when there is a position, else the dates alone when there is a start date, else nothing |
| `PdfBusiness.FormatWorkItem` | utils/pdf_exporter.py:473-493 | the steps build exactly the work item's elements |
| `PdfBusiness.WorkItemShowsAllAchievements` | utils/pdf_exporter.py:489-491 | every achievement is shown, one bullet each, in order, after at most three other elements |
| `PdfBusiness.WorkItemTexts` | utils/pdf_exporter.py:473-493 | a work item uses only the bold, small and normal styles |
| `PdfBusiness.AddWorkExperience` | utils/pdf_exporter.py:463-471 | the work section is its title and each entry's item and spacer, in order |
| `PdfBusiness.RoleDate` | utils/pdf_exporter.py:510-516 | at most the role and the dates, and nothing exactly when there is neither a role nor a start date |
| `PdfBusiness.ProjectItemTexts` | utils/pdf_exporter.py:505-526 | a project item uses only the bold, small and normal styles |
| `PdfBusiness.AddProjectExperience` | utils/pdf_exporter.py:495-503 | the project section is its title and each entry's item and spacer, in order |
| `PdfBusiness.EducationItemTexts` | utils/pdf_exporter.py:538-556 | an education item uses only the bold and small styles |
| `PdfBusiness.AddEducation` | utils/pdf_exporter.py:528-536 | the education section is its title and each entry's item and spacer, in order |
| `PdfBusiness.AddSkills` | utils/pdf_exporter.py:558-568 | the chunking loop builds exactly the skills section |
| `PdfBusiness.SkillsAllShown` | utils/pdf_exporter.py:562-565 | every skill is shown: `ceil(n / 6)` lines of at most six skills that give back the list in order |
| `PdfBusiness.AddAdditionalInfo` | utils/pdf_exporter.py:570-586 | the loops build exactly the closing section |
| `PdfBusiness.AdditionalInfoLabels` | utils/pdf_exporter.py:570-586 | the closing section labels exactly the non-empty lists and shows at most four entries of each |
| `PdfBusiness.LabelledListTexts` | utils/pdf_exporter.py:574-583 | a list's caption is shown exactly when the list is non-empty, with at most four entries |
| `PdfBusiness.BuildContent` | utils/pdf_exporter.py:440-461 | the story is the header followed by each section whose field is set |
| `PdfBusiness.SectionOrder` | utils/pdf_exporter.py:440-461 | the section titles are those of the non-empty fields in the order work, projects, education, skills, and `其他信息` when there are certificates or awards |
| `PdfCreative.Header` | utils/pdf_exporter.py:616-645 | at most the name and the job title, and nothing exactly when both are empty |
| `PdfCreative.HeaderName` | utils/pdf_exporter.py:620-623 | the name is shown once, in capitals, when it is set |
| `PdfCreative.BuildSidebar` | utils/pdf_exporter.py:647-683 | the steps build exactly the sidebar |
| `PdfCreative.AddListBlock` | utils/pdf_exporter.py:664-667 | the loop appends the titled list block, at most `n` entries |
| `PdfCreative.ListBlockTexts` | utils/pdf_exporter.py:664-681 | a titled list has its title exactly when the list is non-empty, and at most `n` entries |
| `PdfCreative.SidebarTitles` | utils/pdf_exporter.py:647-683 | the sidebar's titles are `联系方式` always, then skills, certificates and awards for the non-empty lists |
| `PdfCreative.WorkItemTexts` | utils/pdf_exporter.py:715-729 | a work item's one body paragraph is the description's first 300 characters, cut without `...` |
| `PdfCreative.ProjectItemTexts` | utils/pdf_exporter.py:731-747 | a project item uses only the bold, small and normal styles |
| `PdfCreative.EducationItemTexts` | utils/pdf_exporter.py:749-764 | an education item uses only the bold and small styles |
| `PdfCreative.BuildMainContent` | utils/pdf_exporter.py:685-713 | the steps build exactly the main column, with at most four work entries, four projects and two schools |
| `PdfCreative.MainTitles` | utils/pdf_exporter.py:685-713 | the main column's titles are those of its non-empty fields, in the order introduction, work, projects, education |
| `PdfCreative.BuildContent` | utils/pdf_exporter.py:597-614 | the story is the header followed by the two columns |
| `PdfClassic.Contacts` | utils/pdf_exporter.py:796-837 | at most three labelled contacts, and none exactly when phone, e-mail and location are all empty |
| `PdfClassic.Header` | utils/pdf_exporter.py:796-847 | the header holds between two and five elements |
| `PdfClassic.HeaderShows` | utils/pdf_exporter.py:796-847 | a set name comes first in the header; with contacts, the joined labelled contact line comes just before the spacer and the rule |
| `PdfClassic.HeaderTexts` | utils/pdf_exporter.py:796-847 | the header uses only the name, title and meta styles |
| `PdfClassic.DateLine` | utils/pdf_exporter.py:878-880 | the date line is a small paragraph that is never empty |
| `PdfClassic.NoDatesShowSeparator` | utils/pdf_exporter.py:878-880 | an item with neither date still shows the bare ` - ` |
| `PdfClassic.ItemDates` | utils/pdf_exporter.py:866-942 | each item has exactly one small paragraph, its date line, whatever its fields |
| `PdfClassic.AddEducation` | utils/pdf_exporter.py:856-864 | the education section is its title and each entry's item and spacer, in order |
| `PdfClassic.AddWorkExperience` | utils/pdf_exporter.py:885-893 | the work section is its title and each entry's item and spacer, in order |
| `PdfClassic.AddProjects` | utils/pdf_exporter.py:914-922 | the project section shows at most the first four projects, each with a spacer |
| `PdfClassic.AddSkills` | utils/pdf_exporter.py:944-954 | the chunking loop builds exactly the skills section |
| `PdfClassic.SkillsAllShown` | utils/pdf_exporter.py:948-950 | every skill is shown: `ceil(n / 8)` lines of at most eight that give back the list in order |
| `PdfClassic.BuildContent` | utils/pdf_exporter.py:773-794 | the story is the header followed by each section whose field is set |
| `PdfClassic.SectionOrder` | utils/pdf_exporter.py:773-794 | the section titles are those of the non-empty fields, in the order introduction, education, work, projects, skills |
| `PdfCompact.Contacts` | utils/pdf_exporter.py:983-1017 | no contacts exactly when phone, e-mail and location are all empty |
| `PdfCompact.Header` | utils/pdf_exporter.py:983-1017 | the header has one to four elements and ends with a spacer, without a rule; a set name comes first, upper-cased; with contacts, the joined contact line comes just before the spacer |
| `PdfCompact.HeaderTexts` | utils/pdf_exporter.py:983-1017 | the header uses only the name, small and meta styles |
| `PdfCompact.SkillsLineIgnoresTail` | utils/pdf_exporter.py:1019-1023 | the skills line lists the first fifteen skills and nothing after them |
| `PdfCompact.CompactDate` | utils/pdf_exporter.py:1039 | the date is never empty, so it is always shown |
| `PdfCompact.WorkHeaderEndsWithDate` | utils/pdf_exporter.py:1035-1051 | a work entry's line always ends with its dates |
| `PdfCompact.FormatWorkItem` | utils/pdf_exporter.py:1035-1057 | the steps build exactly the work item's elements |
| `PdfCompact.WorkItemShowsAchievements` | utils/pdf_exporter.py:1053-1055 | a work entry takes one line plus one per shown achievement, at most two, each cut to eighty characters |
| `PdfCompact.WorkItemTexts` | utils/pdf_exporter.py:1035-1057 | a work entry's lines are all small |
| `PdfCompact.AddWorkExperience` | utils/pdf_exporter.py:1025-1033 | the work section is its label and at most five entries, each with a spacer |
| `PdfCompact.ProjectItemTexts` | utils/pdf_exporter.py:1069-1082 | a project entry's lines are all small: one for the name and one for the stack, each only when set |
| `PdfCompact.AddProjects` | utils/pdf_exporter.py:1059-1067 | the project section is its label and at most three entries, each with a spacer |
| `PdfCompact.EducationInfoEndsWithDate` | utils/pdf_exporter.py:1088-1103 | an education line always ends with its dates |
| `PdfCompact.AddEducation` | utils/pdf_exporter.py:1084-1106 | the loop builds exactly the education section |
| `PdfCompact.EducationSectionShape` | utils/pdf_exporter.py:1084-1106 | the education section is its label and one line for each of at most two entries |
| `PdfCompact.BuildContent` | utils/pdf_exporter.py:964-981 | the story is the header followed by each section whose field is set |
| `PdfCompact.SectionOrder` | utils/pdf_exporter.py:964-981 | the bold labels are those of the non-empty sections, in the order work, projects, education |

## Left out

- Binary and file text extraction (`parse_pdf`, `parse_word`, `parse_text`, `parse_image`, utils/file_parser.py:61-115): pdfplumber, python-docx, pytesseract and file reads. Each extractor's result is a parameter, and a raised failure is a `None` result.
- `parse_resume_full` and `resume_to_dict` (used at app.py:105-106) are not part of this model. The JSON they would store is the `parsedData` parameter of `AppRoutes.Database.UploadResume`.
- Database.UploadResume: app.py:72 imports `parse_resume_full` and `resume_to_dict` from utils/file_parser.py, which defines neither. As written, importing app.py raises `ImportError`, so no route runs. The model assumes the two names exist and models the upload as if the import succeeded.
- ExportResume: inside its `try`, `export_resume` imports `parse_resume_full` from utils/file_parser.py (app.py:340). As written, that import raises on every request and the route answers the catch-all error. The model assumes the import succeeds.
- reportlab itself: fonts, colours, margins, column widths, table styles, rule geometry and PDF bytes (utils/pdf_exporter.py:6-110, 141-177). An element keeps only its kind, style name and text.
- `WordExporter` (utils/doc_exporter.py:55-200) and `export_to_word`: python-docx document mutation and temporary files.
- `HTMLExporter.export`, `export_to_html` and `get_available_export_formats` (utils/doc_exporter.py:207-220, 388-410): file writing and a constant list.
- The HTML page's style sheet and meta tags are fixed texts that the model does not spell out (`HtmlExport.StyleSheet`, `HtmlExport.MetaTags`). Nothing proved depends on their content.
- The wording of the four prompts (`AiClient.AnalysisInstructions` and the three others) and the sample answers and tips of the question bank (`QuestionBank.SampleAnswer`, `QuestionBank.Tip`) are fixed texts that the model does not spell out. Which parts of the résumé and job description a prompt embeds is modelled.
- HTTP traffic: the request of `AIClient.chat` and `test_api_key` (utils/ai_client.py:54-60, 322-357). The reply is an input datatype. The outcome of the key test is the `testOk` and `testMessage` parameters of `AppRoutes.SaveApiConfig`. Timeouts and other exceptions are one failed-reply case.
- JSON decoding is an abstract partial function parameter. JSON numbers are integers only, and `json.dumps` is not modelled.
- Floating point: the comparator's scores use exact integer arithmetic with Python's round-half-even (`Comparator.RoundDiv`) in place of IEEE doubles. The `total_amount` that `_mock_alipay_order_str` computes as `int(amount * 100)` (utils/payment_service.py:167) is the free parameter `Payment.Env.alipayTotal`: the model does not relate it to the product's price, and so does not capture that Python's float product truncates 19.9 × 100 to 1989. `FileParser.Suggestion.matchScore` is an exact `real` where Python computes the float `match_count / len(required_skills)` (utils/file_parser.py:246); the ranking order can differ only where two floats round to equal values.
- `str.lower` and `str.upper` are ASCII-only. The vocabularies are ASCII. Non-ASCII characters whose Python case mapping is ASCII are not modelled. `name.upper()` in the creative and compact headers (`PdfCreative.Header`, `PdfCompact.Header`; utils/pdf_exporter.py:622, 991) also runs on the person's name: Python prints `José` as `JOSÉ`, the model as `JOSé`.
- `\d` in the regular expressions is the ASCII digits; Python's also matches other Unicode decimal digits.
- Text.ParseInt accepts ASCII digits only, while Python's `int()` accepts any Unicode decimal digit. This affects the year reading of `Comparator.ExpYears` (`int(start[:4])`, utils/comparator.py:127-152) and the `%Y`/`%m` reading of `DateFormat.ParseWith`: a year written in non-ASCII digits counts as unparseable in the model.
- `list(set(...))` in `extract_skills` has no defined order in Python. The model keeps the first-occurrence order, and contracts speak only of membership and the absence of duplicates.
- Comparator.ListIn: the recommendations print `list(set)[:3]` (utils/comparator.py:223, 226, 243, 245), whose order, and so which three are shown, follows Python's hash order. `Comparator.RecommendationItems`, `Comparator.JdAdvice`, `Comparator.GenerateRecommendations` and `Comparator.AppendJdAdvice` fix an order through `Comparator.ListIn`: a skill list's order for the unique skills, the vocabulary's order for the missing ones. Which three skills Python prints is not modelled.
- `strftime('%Y')` for years below 1000: the model prints four digits, while the C library may print fewer.
- Non-string values in the saved configuration file: the model reads the file as a map from names to strings.
- Resume.Record: the fields are optional strings and string lists, so a JSON `null` or a non-string value in stored or model-produced data is not represented. Python then raises or prints differently, and the model does not capture this: `edu.get('degree', '').lower()` on a `null` degree raises `AttributeError` (utils/comparator.py:190); `' • '.join` over a non-string skill raises `TypeError` (utils/pdf_exporter.py:565); `f"◆ {ach}"` prints a number as it is.
- The clock, random draws and MD5 are parameters (`Payment.Env`, the `now` arguments of the AI client). The expiry date arithmetic of `_calculate_expire_time` is the `expireAfter` parameter.
- The database lookups and updates of the payment service are parameters of `Payment.Activate`. `Payment.HandlePaymentSuccess` uses the source's stubs.
- Flask routing, SQLite connections, JSON responses and `send_file`. The routes that only relay modelled members (`/api/analyze`, `/api/match`, `/api/interview`, `/api/self-intro`, `/api/resumes`, `/api/templates`, `/api/status`, `/api/status/reset`, `/api/config/test`, app.py:133-316, 389-455, 480-499) are covered through those members. The catch-all `except` of each route, which answers `str(e)`, is not modelled.
- The `/api/jobs/hot` route (app.py:573-749) answers a fixed list of sixteen jobs of its own and does not call the job client, so the page is not affected by the record-17 finding. That list is not modelled.
- The database lookups of `compare_resumes` (utils/comparator.py:265-315): storage.
- `get_job_client`, `search_jobs_api` and the module-level `get_hot_jobs` (utils/job_client.py:428-448): a singleton around `MockJobClient` and conversions to dictionaries. The job table is a parameter of `JobClient.SearchJobs` and `JobClient.HotJobs`.
- The module-level singletons and the unsynchronised usage counters are modelled as sequential state. Nothing is claimed about concurrent requests.
- static/js/main.js (browser code), the test_*.py scripts (HTTP drivers against a running server), utils/__init__.py and the constants-only parts of config.py.
- PdfCreative.ProjectItemTexts: states only which styles a project item uses. The 200-character cut of the description is part of `PdfCreative.ProjectItem` and has no lemma of its own.
- Comparator.EducationScore: states the corrected `_edu_score`, whose degree and school tests find `PhD`, `Master`, `MBA` and `MIT`. The code as written is `Comparator.EducationScoreAsWritten`, and `Comparator.EducationScoreDiffersOnPhd` shows an input where the two differ.
- Comparator.EduScore: computes the corrected score, as `Comparator.EducationScore` does.
- Comparator.CompareEducation: its scores are the corrected education scores.
- Comparator.Compare: its education scores, and so its overall score, use the corrected education scores.
- JdParser.ParsedJd: reads the requirements after the whole `任职要求` or `任职资格` heading, the corrected pattern. The code as written is `JdParser.ParsedJdAsWritten`, and `JdParser.ParsedJdAsWrittenDiffers` and `JdParser.RequirementLinesDiffer` show where the two differ.
- JdParser.ParseJd: computes the corrected description, as `JdParser.ParsedJd` does.
- AppRoutes.UpdatePair: a pair whose key is a number, boolean or `None` is dropped, while Python stores it under that non-string key; the model's dictionaries have string keys only. An object used as a pair is reported as an error, because JSON key order is not modelled; Python would take its two keys in order.

## Findings

| source | as written | input that shows it | evidently intended | confidence | as-written member | corrected member |
|---|---|---|---|---|---|---|
| utils/comparator.py:190-196 | the degree is lowered before it is searched for `PhD`, `Master` and `MBA`, so those tests never succeed | degree `PhD` earns no bonus | English degree names earn the doctorate or master bonus | high, not executed | `Comparator.EnglishPhdEarnsNothing` | `Comparator.IntendedDegreeBonusCountsPhd` |
| utils/comparator.py:198-201 | the school is lowered before it is searched for `MIT`, so that test never succeeds | school `MIT` earns no bonus | MIT counts as a top school | high, not executed | `Comparator.MitEarnsNothing` | `Comparator.IntendedSchoolBonusCountsMit` |
| utils/job_client.py:239-250 | job record 17 stores its company under `公司`; every other record uses `company` | `MockJobClient().get_hot_jobs()` reads `job['company']` for record 17 and raises `KeyError` | record 17 has a `company` key like the others | high, not executed | `JobClient.HotJobsFailAsWritten` | `JobClient.HotJobsCorrected` |
| utils/job_client.py:389 | `任职[要求|资格]` is a character class, so the heading matches `任职要` and the captured block starts with the leftover `求：` | `任职要求：精通Python开发` gives the requirement line `求：精通Python开发` | the group `任职(要求|资格)`, giving `精通Python开发` | high, not executed | `JdParser.RequirementsKeepHeadingRemnant` | `JdParser.IntendedRequirementsFollowHeading` |
