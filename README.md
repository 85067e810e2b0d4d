# python-aws scripts, modelled in Dafny

This project models the data-shaping logic of six small AWS command-line
scripts:

- `get_costs.py` builds a cost and inventory report. It enumerates the
  account's resources kind by kind in a fixed order and looks up each
  resource's unblended cost over a window of days. Subnets get no cost and no
  lookup. It then appends the NAT Gateway and CloudFront service totals. The
  report prints either as a fixed-width table or as Prometheus metric lines.
- `get_volumes.py` lists EBS volumes. It builds the paginator filter,
  flattens the pages and simplifies each volume. It then prints a
  tab-separated table, or flattens the rows for CSV, or both.
- `get_subnets.py` prints one tab-separated line per subnet. The name is
  taken from the last `Name` tag.
- `get_instances.py` builds the `ec2info` dict. The name is taken from the
  first `Name` tag. Printing the dict walks six attributes, and the sixth,
  `Launch Time`, is never present.
- `s3_upload_photos_cosplay.py` walks a directory tree. It uploads the first
  20 files under the names `001.<ext>` to `020.<ext>`.
- `s3_bucket_to_index_html.py` writes one link per bucket key containing
  `.jpg`, then uploads the page as `index.html`.

Every AWS call is an input to the model:

- listings are `Result<seq<string>, string>`, where `Failure` is the
  exception the call raised;
- the Cost Explorer is a function from a query to its answer;
- the paginator is a function from filter parameters to pages;
- the `os.walk` steps are a sequence of `Dir` values.

Costs have an abstract type `C`. Parsing them with `float` and printing them
with `str` and `:.2f` are parameters (`Costs.Numbers`).

Python's insertion-ordered `dict` is `OrderedDict`. Writing to a present key
keeps its position and replaces its value.

The modules are:

| module | file |
|---|---|
| `Wrappers` | `wrappers.dfy` |
| `Text` | `text.dfy` |
| `OrderedDict` | `ordered_dict.dfy` |
| `Tags` | `tags.dfy` |
| `Costs` | `costs.dfy` |
| `Volumes` | `volumes.dfy` |
| `Subnets` | `subnets.dfy` |
| `Instances` | `instances.dfy` |
| `UploadPhotos` | `upload_photos.dfy` |
| `IndexHtml` | `index_html.dfy` |

The loops of the scripts are methods, each proved against a specification.
Most are proved equal to a recursive specification function, and lemmas
state what that function promises. `Costs.RecordLines`, `Volumes.TableLines`,
`Volumes.FlattenForCsv` and `Subnets.ListSubnets` instead state their result
element by element, in quantified postconditions.

## Model

| member | source | states |
|---|---|---|
| Costs.Delta | get_costs.py:71 | `timedelta(days=d)` accepts exactly the day counts of magnitude at most 999999999. Past a C `int` it fails with `Python int too large to convert to C int`. |
| Costs.WindowFor | get_costs.py:70-72 | The window fails exactly when `timedelta` refuses the day count, with its message, or when the start date leaves the calendar, with `date value out of range`. `end` is today and `start` is exactly `period_days` before it. `start <= end` holds exactly when `period_days >= 0`, because there is no sign check. |
| Costs.DeltaOverflowMessage | get_costs.py:71 | A day count of plus or minus 10**9 fails with `days=<d>; must have magnitude <= 999999999`. |
| Costs.WindowOverflowKinds | get_costs.py:70-71 | 2**31 days fails at the C `int` conversion. A count that `timedelta` accepts but that leaves the calendar fails with `date value out of range`. |
| Costs.GetCost | get_costs.py:6-17 | The lookup filtered on the resource id yields a cost exactly when the call answered a first period whose amount parses, and then it is that amount. Every exception gives `None`. |
| Costs.GetCostService | get_costs.py:19-30 | The same lookup, filtered on the service name. |
| Costs.FirstAmount | get_costs.py:6-17 | A cost is present only if the call answered with a first period that has an amount. It is then that amount, parsed. Every failure gives `None`. |
| Costs.LaterPeriodsIgnored | get_costs.py:14 | Periods after the first never change the cost. |
| Costs.ListSqs | get_costs.py:41 | There is one id per queue URL, or none without the `QueueUrls` key. Each id is the `/`-free suffix of its URL that follows the last `/`. |
| Costs.ListSns | get_costs.py:42 | There is one id per topic ARN, or none without `Topics`. Each id is the `:`-free suffix after the last `:`. |
| Costs.ListDynamoDb | get_costs.py:39 | The enumerator succeeds exactly when there is no table. It then yields no id. |
| Costs.DynamoDbTableAborts | get_costs.py:39 | A single DynamoDB table makes the whole report fail. |
| Costs.AppendKind | get_costs.py:76-86 | One per-kind loop appends exactly that kind's records for its ids, in order. The lookup log grows by the queries of those records. |
| Costs.CollectKinds | get_costs.py:76-86 | The eleven loops give the records of every kind, or the exception of the first enumerator that raised. When they succeed, the lookup log is exactly the records' queries. |
| Costs.Aggregate | get_costs.py:74-92 | The resource list equals the report specification. On success, the lookups issued are exactly the records' queries, in order. |
| Costs.CollectedStep | get_costs.py:76-86 | One kind's loop either propagates its enumerator's exception or appends that kind's records. |
| Costs.FailureSticks | get_costs.py:76-86 | After an enumerator has raised, later kinds do not change the outcome. |
| Costs.ServiceQueries | get_costs.py:89-92 | The two service totals add exactly the `NAT Gateway` and `Amazon CloudFront` service queries, in that order. |
| Costs.CollectedCount | get_costs.py:76-86 | The collected records number exactly as many as the enumerated ids. |
| Costs.CollectedOrder | get_costs.py:76-86 | The collected records are sorted by kind rank, and only enumerated kinds occur. |
| Costs.CollectedIds | get_costs.py:76-86 | Every enumerator answered. The records of each kind carry exactly its ids, in enumeration order. |
| Costs.KindRecordsAnswered | get_costs.py:76-86 | A kind's records each carry the answer to their own query. |
| Costs.CollectedCosts | get_costs.py:76-86 | Every collected record's cost is the answer to its own query. |
| Costs.CollectedFailure | get_costs.py:76-86 | Collection fails exactly when some enumerator raised. |
| Costs.CollectedFirstFailure | get_costs.py:76-86 | A failed collection carries the exception of the first enumerator, in kind order, that raised. |
| Costs.ResourcesFailure | get_costs.py:74-94 | The report fails exactly when some enumerator raised. It then carries the first such exception. |
| Costs.ResourcesShape | get_costs.py:89-92 | The report has the enumerated ids plus 2 records. The last two are `(NAT Gateway, All)` and then `(CloudFront, All)`, with their service costs. |
| Costs.ResourcesOrder | get_costs.py:74-92 | Kinds appear in the fixed order EC2 … SNS, and the service totals come only at the end. |
| Costs.TotalsKeepOrder | get_costs.py:89-92 | Appending the totals to kind-ordered records keeps them kind-ordered, with the totals last. |
| Costs.ResourcesIds | get_costs.py:76-86 | Each enumerated kind's records carry exactly that enumerator's ids, in order. |
| Costs.TotalsAddNoIds | get_costs.py:89-92 | The totals add no record to any enumerated kind. |
| Costs.ResourcesCosts | get_costs.py:76-92 | Every cost is the answer to its record's own query. Every Subnet record has cost `None`. |
| Costs.QueriesCount | get_costs.py:82 | There is one lookup per record that is not a subnet, so subnets cause no lookup. |
| Costs.PrintOutput | get_costs.py:44-55 | In Prometheus mode it prints one metric line per record. Otherwise it prints the header, the rule, and one table row per record, in record order. |
| Costs.MetricLine | get_costs.py:49 | A metric line starts with `aws_cost{resource="`, then the id, and ends with a space and the value. |
| Costs.TableRow | get_costs.py:55 | A row is at least 67 wide. The kind label starts it, column 16 is a space, the id starts at column 17, and the cost text ends it. |
| Costs.RecordLines | get_costs.py:46-55 | A per-record print loop prints one line per record, in order. |
| Costs.MetricLineLabels | get_costs.py:49 | A metric line splits at its double quotes into the metric name, the id, `,type=`, the kind label and the value. |
| Costs.LabelUnquoted | get_costs.py:49 | No kind label contains a double quote. |
| Costs.MissingCostDiverges | get_costs.py:47-54 | A missing cost ends its metric line with ` 0` and its table row with `N/A`. |
| Costs.TableRowWidth | get_costs.py:51-55 | A row whose id fits in 40 columns and whose cost fits in 10 is 67 wide, like the header. Its cost is right-aligned at the end. |
| Costs.Run | get_costs.py:57-107 | Any exception prints only `Erreur: <message>` and exits 1. Otherwise the report is printed and the exit code is 0. |
| Volumes.FilterParams | get_volumes.py:35-40 | Without a state there is no `Filters` key. With one, there is exactly the filter `status = [state]`. |
| Volumes.FlattenAppend | get_volumes.py:41-43 | The volumes of two runs of pages are each run's volumes, in page order. |
| Volumes.PageWithoutVolumes | get_volumes.py:42 | A page without `Volumes` contributes nothing, wherever it is. |
| Volumes.ListVolumes | get_volumes.py:34-46 | The result is the paginator's exception, or every page's volumes concatenated in page order. |
| Volumes.Simplify | get_volumes.py:48-73 | Every attachment is kept, in order, projected to three keys. The tags are a dict built from the tag pairs. All twelve scalar keys are copied, with `Size` as `SizeGiB`. |
| Volumes.SimplifyTags | get_volumes.py:57 | Each tag key appears once, at its first position, with the value of its LAST tag. A key is absent exactly when no tag has it. No tags give `{}`. |
| Volumes.SimplifyAll | get_volumes.py:118 | It simplifies each listed volume, in order. |
| Volumes.SizeText | get_volumes.py:90 | The size prints empty exactly when it is missing or `0`. |
| Volumes.InstanceIds | get_volumes.py:85 | The attachment ids exist exactly when every attachment has one, and they come in attachment order. |
| Volumes.HumanFields | get_volumes.py:84-96 | A table line has eight fields. It raises exactly when an attachment lacks an instance id. |
| Volumes.Printable | get_volumes.py:84-97 | The number of rows printed before one raises is at most the row count. |
| Volumes.PrintableFirstFailure | get_volumes.py:84-97 | The rows before that point print, and the row at that point raises. |
| Volumes.PrintableStops | get_volumes.py:84-97 | The first row that raises is exactly at that point. |
| Volumes.TableLines | get_volumes.py:84-97 | It prints one tab-joined line per printable row, and `ok` holds exactly when all rows printed. |
| Volumes.PrintHuman | get_volumes.py:75-97 | No rows print only `Aucun volume trouvé.`. Otherwise the header comes first, then one line per row up to the first row that raises. |
| Volumes.HumanLineFields | get_volumes.py:84-97 | A line without tabs in its fields splits back into its 8 fields. Attachments print `-` when there are none. Tags print `-` exactly when there are none. An empty size field means a size of `None` or `0`. |
| Volumes.TagJoinHasEquals | get_volumes.py:86 | A joined tags column always contains `=`, so it is never `-`. |
| Volumes.FlattenForCsv | get_volumes.py:99-107 | The field names are empty for no rows. Each flat row keeps every scalar key, with attachments and tags comma-joined (`""` when empty). It fails exactly when some attachment lacks an id. |
| Volumes.EmptyColumnsDiffer | get_volumes.py:84-106 | "Nothing" prints as `-` in the table and as `""` in the CSV. |
| Volumes.ModeLines | get_volumes.py:120-125 | Without the table, the CSV notice and the JSON text are one line per output that `Volumes.OutputModes` lists, in its order. |
| Volumes.OutputModes | get_volumes.py:120-127 | CSV is written exactly when a path is given, and first. JSON is printed exactly when asked. The table is printed only when neither was asked. |
| Volumes.ListRows | get_volumes.py:118 | The rows are the simplified listed volumes, or the paginator's exception. |
| Volumes.Run | get_volumes.py:26-127 | A session error prints `Erreur de session/credentials: <e>` and exits 1 (lines 30-32). A `describe_volumes` error prints `Erreur describe_volumes: <e>` and exits 2 (lines 44-46). Otherwise `main` (lines 115-127) prints the CSV notice, the JSON text and the table as the flags select. Without the table, the lines are exactly one per output that `Volumes.OutputModes` lists, in its order. The exit code is 1 exactly when the CSV flattening or the table raises, and the lines printed before that are kept. |
| Subnets.SubnetName | get_subnets.py:30-34 | The name is `-` with no tags or no `Name` tag. Otherwise it is the value of the LAST `Name` tag. |
| Subnets.LastNameWins | get_subnets.py:31-34 | The last tag keyed `Name` decides the name. |
| Subnets.SubnetFields | get_subnets.py:26-35 | A line has five fields, and the fifth is the subnet's name. |
| Subnets.ListSubnets | get_subnets.py:17-35 | A connection error prints one message only. A missing `Subnets` key prints nothing. Otherwise it prints one tab-joined line per subnet, in order. |
| Subnets.SubnetLineFields | get_subnets.py:35 | A line whose fields hold no tab splits back into exactly its five fields. |
| Tags.NameValues | get_subnets.py:31-34 | There are at most as many `Name` values as tags, and each comes from a tag keyed `Name`. They are empty exactly when no tag is keyed `Name`. |
| Tags.NameValuesOne | get_subnets.py:33-34 | One tag contributes its value exactly when its key is `Name`. |
| Tags.NameValuesAppend | get_subnets.py:32-34 | The values of two runs of tags are those of the first run, then those of the second. With `Tags.NameValuesOne`, every `Name` tag contributes its value, in tag order. |
| Instances.FirstNameWins | get_instances.py:20-24 | The first tag keyed `Name` decides the name. |
| Instances.InstanceName | get_instances.py:19-24 | The name is `N/A` for `None` or empty tags, or when no tag is keyed `Name`. Otherwise it is the value of the FIRST `Name` tag. |
| Instances.EntryOf | get_instances.py:27-33 | An entry has exactly the keys Name, Type, State, Private IP and Public IP. |
| Instances.Pairs | get_instances.py:18-33 | There is one (id, entry) pair per listed instance, in listing order. |
| Instances.BuildEc2Info | get_instances.py:16-33 | The dict is the one built from the pairs in order, and every entry has the five keys. |
| Instances.BuildStep | get_instances.py:27-33 | One assignment extends the dict by the next pair and keeps the five keys. |
| Instances.Ec2InfoKeys | get_instances.py:16-33 | The dict holds one entry per distinct id, in first-occurrence order. |
| Instances.Ec2InfoMissing | get_instances.py:27 | An id is absent exactly when no instance has it. |
| Instances.Ec2InfoLastWins | get_instances.py:27 | An id maps to the entry of the LAST instance with that id. |
| Instances.PrintEntry | get_instances.py:38-39 | It prints the attribute lines of one entry, stopping at the first attribute the entry lacks. |
| Instances.PrintInstances | get_instances.py:37-40 | It prints the lines of every entry, with a separator after each, and stops at the first `KeyError`. |
| Instances.LinesUpToMissing | get_instances.py:38-39 | An entry missing attribute `m` prints exactly the first `m` attribute lines, then raises. |
| Instances.PrintoutRaises | get_instances.py:35-40 | With no instance nothing is printed. Otherwise it prints five lines for the first instance, then `KeyError` on `Launch Time`. |
| Instances.Run | get_instances.py:10-40 | A failed probe prints `Erreur: …` and exits 1. Otherwise it prints the dict, and exits 1 exactly when there is an instance. |
| OrderedDict.Get | get_instances.py:27 | A lookup finds nothing exactly when the key is absent. |
| OrderedDict.PutKeys | get_instances.py:27 | `d[k] = v` keeps the key order, and appends a new key at the end. |
| OrderedDict.PutGet | get_instances.py:27 | After `d[k] = v`, `k` maps to `v` and every other key is unchanged. |
| OrderedDict.PutUnique | get_instances.py:27 | `d[k] = v` keeps the keys unique. |
| OrderedDict.PutPairs | get_instances.py:27 | Every pair after `d[k] = v` is the new pair or an old one. |
| OrderedDict.FromPairsKeys | get_volumes.py:57 | A dict built from pairs has each key once, in first-occurrence order. |
| OrderedDict.FromPairsGet | get_volumes.py:57 | A key maps to the value of its LAST pair, and is absent when no pair has it. |
| Text.Split | get_costs.py:41-42 | `str.split` always yields at least one piece. |
| Text.SplitPieces | get_costs.py:41-42 | No piece contains the separator. There is one piece exactly when the string has no separator, and it is then the string itself. |
| Text.SplitJoin | get_subnets.py:35 | Splitting a join of separator-free pieces gives the pieces back. |
| Text.JoinSplit | get_volumes.py:97 | Joining the pieces of a split gives the string back. |
| Text.SplitJoinFive | get_costs.py:49 | Five separator-free fields joined by the separator split back into those five fields. |
| Text.LastPieceIsSuffix | get_costs.py:41-42 | The last piece of a split is a suffix of the string, preceded by the separator unless it is the whole string. |
| Text.LastSegment | get_costs.py:41-42 | `s.split(sep)[-1]` is the separator-free suffix after the last separator, or `s` itself without one. |
| Text.PadRight | get_costs.py:51-55 | Left alignment keeps the text, pads with spaces up to the width and never truncates. |
| Text.PadLeft | get_costs.py:51-55 | Right alignment ends with the text, with spaces in front up to the width. |
| Text.RStripFacts | s3_upload_photos_cosplay.py:30 | `rstrip` keeps a prefix, drops only whitespace and leaves none at the end. |
| Text.LStripFacts | s3_upload_photos_cosplay.py:30 | `lstrip` keeps a suffix, drops only whitespace and leaves none in front. |
| Text.ContainsIffOccurs | s3_bucket_to_index_html.py:27 | `sub in s` holds exactly when `sub` occurs at some position of `s`. |
| Text.NatToString | s3_upload_photos_cosplay.py:29 | `str(n)` consists of decimal digits, with no leading zero, and is one digit exactly when `n < 10`. |
| Text.DecimalRoundTrip | s3_upload_photos_cosplay.py:29 | Reading back the digits of `str(n)` gives `n`. |
| UploadPhotos.PathJoin | s3_upload_photos_cosplay.py:27 | An absolute file name replaces the root. Otherwise the path starts with the root and ends with the file name. |
| UploadPhotos.Ext | s3_upload_photos_cosplay.py:28 | It raises exactly when the name has no dot. The extension has no dot. |
| UploadPhotos.ExtSecondComponent | s3_upload_photos_cosplay.py:28 | The extension is the second dot-separated component, so `a.b.jpg` gives `b`. |
| UploadPhotos.ZeroPad3Injective | s3_upload_photos_cosplay.py:29-32 | Different counters give different three-digit numbers. |
| UploadPhotos.PaddedDigits | s3_upload_photos_cosplay.py:29-32 | The two conditional `0` prefixes pad `str(cpt)` to three digits. |
| UploadPhotos.StripPadded | s3_upload_photos_cosplay.py:29-30 | `strip` removes the alignment blanks and the extension's trailing whitespace, and nothing else. |
| UploadPhotos.TargetNameShape | s3_upload_photos_cosplay.py:29-32 | For counters 1 to 999 the target is the zero-padded counter, `.` and the extension with its trailing whitespace removed (`00d.ext`, `0dd.ext`). |
| UploadPhotos.BuildTarget | s3_upload_photos_cosplay.py:29-32 | The successive reassignments build exactly the target name. |
| UploadPhotos.UploadDir | s3_upload_photos_cosplay.py:24-34 | The inner loop over one directory performs the uploads, the counter and the abort that the walk specification gives. |
| UploadPhotos.VisitOne | s3_upload_photos_cosplay.py:25-34 | One file bumps the counter. Past 20 the directory ends. A name without a dot aborts. Otherwise the file is uploaded under the new counter and the walk goes on. |
| UploadPhotos.UploadAll | s3_upload_photos_cosplay.py:22-34 | The uploads, the final counter and the abort are the walk specification's. The printed lines are one `Uploading <file> as <target>` line per upload, in order. |
| UploadPhotos.UploadsAppend | s3_upload_photos_cosplay.py:34 | The uploads of two plans are each plan's uploads, in order. |
| UploadPhotos.FlatAppend | s3_upload_photos_cosplay.py:22-34 | Visiting `a + b` visits `a`, then `b` with the counter advanced by `|a|`, unless `a` aborted. |
| UploadPhotos.VisitFlat | s3_upload_photos_cosplay.py:24-34 | One directory's visit appends the flat uploads of its files. Its counter grows by one per file until it passes 20. |
| UploadPhotos.WalkFlat | s3_upload_photos_cosplay.py:23-34 | The whole walk is the flat run over all files in walk order, with one counter across directories. |
| UploadPhotos.FlatFacts | s3_upload_photos_cosplay.py:25-34 | The flat run uploads the first files under consecutive counters. It stops at the cap or at the first dotless file. |
| UploadPhotos.WalkPlan | s3_upload_photos_cosplay.py:22-34 | The walk plans at most 20 files: the first files, in order, the i-th with counter i+1. It aborts exactly at a dotless file before the cap. |
| UploadPhotos.UploadPlan | s3_upload_photos_cosplay.py:22-34 | It uploads at most 20 files, in walk order, to bucket `test`. The i-th file (from 0) is named `<i+1 padded>.<ext>`, and the run aborts on a dotless file. |
| UploadPhotos.NumberedNamesDiffer | s3_upload_photos_cosplay.py:29-32 | Names that start with different three-digit counters differ. |
| UploadPhotos.CountedTargetsDiffer | s3_upload_photos_cosplay.py:25-34 | Files counted 1, 2, … get pairwise different target names. |
| UploadPhotos.DistinctTargets | s3_upload_photos_cosplay.py:25-34 | No two uploads share a target name. |
| IndexHtml.AnchorLayout | s3_bucket_to_index_html.py:28 | A link is `<a href="K">K</a><br/>` with no escaping, which is 2·\|K\|+20 characters. |
| IndexHtml.BuildIndex | s3_bucket_to_index_html.py:24-28 | The loop writes exactly the page of the keys in listing order. |
| IndexHtml.IndexAppend | s3_bucket_to_index_html.py:25-28 | The page of a concatenated listing is the concatenation of the pages. |
| IndexHtml.IndexLinksEach | s3_bucket_to_index_html.py:25-28 | Every key containing `.jpg` has its link right after the links of the keys before it. |
| IndexHtml.IndexEmpty | s3_bucket_to_index_html.py:27 | The page is empty exactly when no key contains `.jpg`. |
| IndexHtml.IndexLength | s3_bucket_to_index_html.py:28 | The page length is the sum of 2·\|K\|+20 over the keys containing `.jpg`. |
| IndexHtml.FilterExamples | s3_bucket_to_index_html.py:27 | The filter is case-sensitive and matches anywhere: `a.jpg.txt` is kept, while `a.JPG`, `jpg` and `b.jpeg` are not. |
| IndexHtml.Run | s3_bucket_to_index_html.py:24-37 | The page is always built and always uploaded as `index.html` in bucket `test`, even when it is empty. |

## Left out

- The boto3 sessions, clients, resources and paginators, credentials and the network. Their answers are inputs.
- The argparse options and environment defaults. The models take the chosen profile, region, state, days and flags as parameters.
- `float(amount)`, `str(float)` and `:.2f` are abstract functions in `Costs.Numbers`. The model claims nothing about decimal formatting.
- Dates are proleptic Gregorian day numbers. `date.isoformat` text is left out, and so is the clock: today's day number is an input.
- Costs.WindowFor: it requires today's day number to be a valid date, which `datetime.now().date()` always is.
- Text.RStripFacts, Text.LStripFacts: whitespace is the ASCII and Latin-1 set that `str.isspace` accepts. Other Unicode whitespace is not modelled.
- Standard output and standard error are not separated. Printed text is returned as lines, and exit statuses as codes. The traceback that an uncaught exception prints is not among the lines.
- Costs.ListDynamoDb, Costs.WindowFor: the exception texts are those of CPython 3.11 and later. Earlier versions word the `TypeError` of indexing a string by a string without `, not 'str'`.
- Volumes.Run: the text of `json.dumps(vols, ensure_ascii=False, indent=2)` is a parameter, and writing the CSV file is left out. The model states which outputs are produced and in what order.
- The success or failure of `upload_file` is left out: an upload is the call made.
- `os.walk` ordering and `os.path` normalisation are left out: the walk is the given sequence of directories.
- `json.dumps` output and `csv.DictWriter` quoting are left out. `Volumes.FlattenForCsv` models the rows handed to the writer, and `Volumes.OutputModes` models which outputs are produced.
- `write_csv` copies each row before changing it, so the input rows are untouched. In the model rows are values, so this holds by construction rather than by a proof about aliasing.
- The other scripts of the repository hold no logic beyond printing or AWS calls: `list_ami.py`, `crawl_s3_buckets.py`, `stupid_monkey.py`, `tag_instances.py`, `get_securitygroups.py`, `get_s3_buckets.py` and `s3_upload_file.py`.
