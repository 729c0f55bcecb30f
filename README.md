# Service2Compose translation engine, in Dafny

Service2Compose reads the services and networks of a running Docker Swarm
cluster and writes, for each stack, a version 3.3 compose document that would
recreate it. This project models the translation engine of
`Service2Compose.go`:

- grouping services into stacks by their `com.docker.stack.namespace` label
  (`buildStacks`);
- the per-service renderers for restart policies, update and rollback
  configurations, placement constraints, labels and log drivers;
- the service blocks of a stack and the networks they use (`processStack`);
- the networks section (`processNetworkInfo`), which defines a network
  carrying the stack's namespace label and declares any other network external;
- the main loop's composition of the two for one stack.

A document is modelled as a sequence of lines, each without its newline.
Go ranges over a map in no fixed order. Each method that walks a map picks
its keys with `:|` and returns the order it took as a ghost value. The
functions that specify its output take that order as a parameter, which must
list every key exactly once (`Iteration.Enumerates`).

Go panics on a nil pointer, so no document is written in that case. The model
returns a `Services.Fault` for the first member of the stack that has no
replicated mode, no placement or no resources. A member ID with no service
behind it reads as Go's zero service, so it faults for want of a replica
count. A network ID with no network behind it reads as the zero network, so
it is listed under an empty name.

The two process-wide switches (`defaultName` and `encryptNet`) are passed in
explicitly as `Swarm.Flags`. `memandcpuOut` is a function parameter,
`Services.ResourceFormat`.

Files:
- `wrappers.dfy`: `Option` and `Result`.
- `strings.dfy`: decimal rendering, prefix trimming, substring search, space trimming.
- `lines.dfy`: reading a field or a list back out of rendered lines.
- `iteration.dfy`: map iteration orders.
- `swarm.dfy`: the Swarm records.
- `stacks.dfy`: `buildStacks`.
- `fields.dfy`: the per-field renderers.
- `services.dfy`: `processStack`.
- `networks.dfy`: `processNetworkInfo`.
- `document.dfy`: one stack's whole document.

Where the code and its design description disagree, the model follows the
code, except for the two lines listed under "## Findings", which the document
model writes in their corrected form:
- A service without the namespace label is skipped before it is indexed by ID
  (`Service2Compose.go:46-53`). It is neither in a stack nor in the index.
- The image is never checked: an empty image is written as is. Only the nil
  pointers at lines 194, 208 and 211 stop a stack.
- The rollback block is rendered from the rollback configuration
  (lines 204-206), not from the update configuration.
- The encrypted option is forced only on a managed network that has at
  least one driver option (line 312), not on every managed network.
- Option names are dropped or counted as encrypted when they *contain*
  `vxlanid_list` or `encrypted` (lines 316-317), not only on an exact match.
- A service block strips `"<stack>_"` from a network name when the network
  has any non-empty namespace label (lines 239 and 255). The networks
  section strips it only from networks whose label equals the stack (line 303).
- Container labels are trimmed like service labels: line 271 reuses
  `labelsOut`, which trims keys and values (line 148).
- An update or rollback configuration always gets its `delay:` and `monitor:`
  lines, even for zero durations: the guards at lines 89 and 95 compare the
  duration's text with `""`, and a zero `time.Duration` prints as `0s`. The
  model carries durations as `Swarm.DurationText`, which is never empty.

## Model

| member | source | states |
|---|---|---|
| Stacks.BuildStacks | Service2Compose.go:42-56 | the stacks are exactly the namespace labels some service carries; each stack lists the IDs of its services in input order (`Members`); the index is `Indexed` |
| Stacks.GroupedMembers | Service2Compose.go:45-51 | the map the loop builds has an entry exactly for the labels some service carries, listing that label's members in input order |
| Stacks.MembersIff | Service2Compose.go:46-51 | an ID is in a stack exactly when some service with that ID carries the stack's label |
| Stacks.MembersConcat | Service2Compose.go:45-51 | stack membership keeps the input order: the members of a concatenation are the members of each part, in turn |
| Stacks.UnlabelledInNoStack | Service2Compose.go:46-49 | with distinct IDs, a service without the namespace label is in no stack |
| Stacks.IndexedIff | Service2Compose.go:46-53 | an ID is indexed exactly when it was indexed before or a labelled service has it |
| Stacks.UnlabelledNotIndexed | Service2Compose.go:46-53 | an unlabelled service is not added to the index |
| Stacks.LabelledIndexed | Service2Compose.go:53 | with distinct IDs, every labelled service is indexed under its ID, mapped to itself |
| Strings.DecimalRoundTrip | Service2Compose.go:72 | reading back the decimal text of a count gives the count |
| Strings.TrimPrefix | Service2Compose.go:242 | trimming gives the rest of the name after the prefix when the name has it, and the name unchanged otherwise |
| Strings.ContainsIffOccurs | Service2Compose.go:316-317 | a name matches a pattern free of metacharacters exactly when the pattern occurs at some position in it |
| Strings.TrimRemovesOnlyEdgeSpaces | Service2Compose.go:148 | trimming a label key or value removes only leading and trailing spaces |
| Lines.ListRoundTrip | Service2Compose.go:113-118 | reading a rendered list back gives exactly its items, in order |
| Lines.ListOut | Service2Compose.go:275-286 | the item loops write one marked line per item, in order (`ListLines`) |
| Fields.RestartPolicyOut | Service2Compose.go:58-80 | the restart block is always exactly five lines, the `restart_policy:` header first (what each line holds: `RestartPolicyFields`) |
| Fields.RestartPolicyFields | Service2Compose.go:58-80 | the condition is written as is; a missing delay reads `3s`, max attempts `0` and window `0s`; a set max attempts reads back as its value |
| Fields.UpdateConfigOut | Service2Compose.go:82-103 | the block has between two and five lines: delay and monitor always, the other three only when set (read-back: `UpdateConfigFields`) |
| Fields.UpdateConfigFields | Service2Compose.go:82-103 | parallelism, failure action and max failure ratio read back as their values when set and are absent when zero or empty; delay and monitor are always present and read back as their duration text (max failure ratio in its corrected form, see Findings) |
| Fields.UpdateConfigShape | Service2Compose.go:82-103 | one line per field written (delay and monitor always, the other three when set, `SetFields`), each indented by eight spaces |
| Fields.MaxFailureRatioFinding | Service2Compose.go:99 | the line as written cannot be read as a `max_failure_ratio` field; the corrected line reads back as the ratio |
| Fields.ConstraintsOut | Service2Compose.go:105-121 | writes the placement and constraints headers, then the constraints as a list (`ConstraintsLines`) |
| Fields.ConstraintsEntries | Service2Compose.go:105-121 | for a non-empty placement, two headers and then a list that reads back as exactly the constraints, in order |
| Fields.EntriesOut | Service2Compose.go:146-149 | visits every key of the map exactly once and writes one line per key |
| Fields.LabelsOut | Service2Compose.go:137-152 | writes the header at the given indent, then one item per label, in the order visited |
| Fields.LabelsShape | Service2Compose.go:137-152 | one line more than there are labels; the header has the given indent; every label's trimmed `key=value` item is present, and every line after the header is such an item |
| Fields.LogInfoOut | Service2Compose.go:154-178 | visits every option exactly once and writes the logging block (`LogInfoLines`) |
| Fields.LogInfoShape | Service2Compose.go:154-178 | the block opens with `logging:`; the driver line reads back as the driver name unless the name is empty and there are options; an options header is present exactly when there are options; the line count is exact |
| Fields.LogInfoOptions | Service2Compose.go:159-172 | every option is written, plain when the driver is unnamed and with its value quoted otherwise |
| Services.NetworksOut | Service2Compose.go:236-268 | lists the task-level attachments when there are any, else the service-level ones, and records every target with its network's name |
| Services.AttachmentsOut | Service2Compose.go:238-251 | one list item per attachment, in order, and each target recorded in turn |
| Services.NetworksRead | Service2Compose.go:236-268 | the networks block is absent exactly when there is no attachment; otherwise it reads back as the display names of the chosen attachments, in order |
| Services.DisplayNameCases | Service2Compose.go:239-248 | the prefix `<stack>_` is removed only when the switch is on, the network has a namespace label and the name has the prefix; a target with no network lists an empty name |
| Services.RecordEntries | Service2Compose.go:250 | after the loop, a target is recorded exactly when it was before or some attachment names it, and then maps to its network's name |
| Services.PortsFinding | Service2Compose.go:227-233 | the two lines written per port cannot be read as a list item; the corrected block reads back as exactly the quoted `published:target` pairs, in order |
| Services.PortsOut | Service2Compose.go:227-233 | writes the `ports:` header and one list item per port, in order, only when the service publishes ports (`PortsLines`, with the correction under Findings) |
| Services.ServiceFaultCases | Service2Compose.go:194-211 | a service renders exactly when replicas, placement and resources are all present; a missing replica count is reported before a missing placement |
| Services.DeployOut | Service2Compose.go:193-224 | writes the deploy section (`DeployLines`) and visits every deploy label once |
| Services.ContainerOut | Service2Compose.go:270-291 | writes the container labels, mounts, environment and logging (`ContainerLines`), visiting each map once |
| Services.ServiceOut | Service2Compose.go:185-292 | writes one service block (`ServiceLines`) and records its networks |
| Services.ServiceHead | Service2Compose.go:186-195 | a block opens with the service key, its image, `deploy:` and a replica line that reads back as the replica count, and ends with a blank line |
| Services.ServiceKeyChoice | Service2Compose.go:186-190 | the key is the first alias of the first service-level attachment, and the service name when there is no such alias |
| Services.ProcessStack | Service2Compose.go:180-294 | fails exactly when some member cannot be rendered, with the first such member's fault; otherwise writes the header and one block per member in stack order, and reports `UsedNetworks` |
| Services.FirstFaultNone | Service2Compose.go:185-194 | a stack renders exactly when every member has replicas, placement and resources |
| Services.FirstFaultIsFirst | Service2Compose.go:185-211 | the reported fault belongs to a member before which every member renders |
| Services.MissingServiceFaults | Service2Compose.go:194 | an ID with no service behind it stops the stack there for want of a replica count |
| Services.UsedNetworksIff | Service2Compose.go:250 | the reported networks are exactly those some member attaches to, each mapped to its network's name |
| Services.BlocksCoverMembers | Service2Compose.go:185-293 | every member of the stack gets a block, opened by its key line |
| Networks.OptionsOut | Service2Compose.go:312-329 | visits every option exactly once; writes the kept options, then the forced encrypted option when the switch is on and no option name contains `encrypted` |
| Networks.OptionLinesKept | Service2Compose.go:315-326 | every option whose name avoids `vxlanid_list` is written, and every line written is such an option's |
| Networks.OptionLinesNonEmpty | Service2Compose.go:315-326 | some option line is written exactly when some option name avoids `vxlanid_list` |
| Networks.DriverOptsPresence | Service2Compose.go:312-333 | `driver_opts` is written exactly when an option is kept or encryption is forced; without the switch nothing is added to the options |
| Networks.EncryptionForced | Service2Compose.go:314-329 | with the switch on, a managed network with options either has an option naming encryption or ends its driver options with `encrypted: ""` |
| Networks.VxlanExample | Service2Compose.go:312-333 | options `vxlanid_list=256` and `mtu=1450` under the switch give `driver_opts` with only `mtu: 1450` and `encrypted: ""`, in any visiting order |
| Networks.NetworkEntryOut | Service2Compose.go:303-342 | writes one network entry (`NetworkEntry`) and, for a managed network, visits each option once |
| Networks.EntryKinds | Service2Compose.go:303-342 | a network is declared `external: true` exactly when its namespace label differs from the stack; a managed network carries its driver, its name with `<stack>_` stripped under the switch, and ends with its access label when it has one |
| Networks.ProcessNetworkInfo | Service2Compose.go:296-346 | appends the networks section to the document so far, visiting every network found exactly once |
| Networks.SectionEntriesOut | Service2Compose.go:302-343 | visits every network found exactly once and writes its entry (`NetworkEntries`) |
| Networks.SectionShape | Service2Compose.go:300-345 | the section is absent exactly when no network was found; otherwise it opens with `networks:` and holds each found network's entry |
| Document.StackDocument | Service2Compose.go:395-396 | one stack's document fails with the first member's fault, or is the header, the service blocks and the section for the networks they use |
| Document.AttachedNetworksListed | Service2Compose.go:300-302 | every network a member attaches to has its entry in the networks section |
| Document.NoNetworksNoSection | Service2Compose.go:300 | a stack attached to no network gets no networks section |

## Left out

- `memandcpuOut` (lines 123-135) is a parameter. Its floating-point division and `%.2f`/`%.0f` formatting are not modelled.
- `generateNetworkInfo` (lines 24-40) is left out: it only fetches the network list from the cluster and indexes it by ID. The model takes that map as an input.
- `main` (lines 348-400) is left out: client setup, flag parsing, the help text, the banner lines, and selecting stacks by regular expression. Only its composition of `processStack` and `processNetworkInfo` for one stack is modelled, as `Document.StackDocument`.
- `time.Duration` values are carried as the text their `String()` method produces. The float32 failure ratio is carried with its printed text. How Go formats either is not modelled.
- Counts and ports are unbounded naturals; the 64-bit widths of the counts and the 32-bit widths of the published and target ports are not modelled.
- Fields.ConstraintsOut: with no constraints, the source leaves `"          - "` unterminated. The model writes it as a line of its own. `processStack` never calls it in that case.
- Stacks.BuildStacks: the source fills the caller's service map in place. The model returns the filled map instead.
- Fields.UpdateConfigOut: writes the corrected `max_failure_ratio: <ratio>` line, not the line 99 writes; the as-written line exists only as `Fields.MaxFailureRatioLineAsWritten`, and no rendering of a stack uses it.
- Services.ServiceLines: writes each port as one list item (`Services.PortsLines`), not the two lines per port that lines 230-231 write; the as-written form exists only as `Services.PortLinesAsWritten`, so `Services.ProcessStack` and `Document.StackDocument` describe the corrected document.
- `TaskTemplate.ContainerSpec` is read as a value, as in the Swarm API types the code reads without a nil check (lines 192 and 270-284). In API versions where it is a pointer, a service without a container spec panics at line 192 before any of the three faults the model reports.
- A panic ends the whole program, including other stacks' documents. The model reports the fault for the stack being written.

## Findings

| source | as written | input that shows it | evidently intended | confidence | as-written member | corrected member |
|---|---|---|---|---|---|---|
| Service2Compose.go:99 | `max_failure_ratio %d` formats a float32 with `%d` and has no colon, so the line is `        max_failure_ratio %!d(float32=0.2)` | an update config with `MaxFailureRatio` 0.2 | `        max_failure_ratio: 0.2` | not executed | Fields.MaxFailureRatioLineAsWritten | Fields.MaxFailureRatioLine |
| Service2Compose.go:230-231 | each port writes `     - ` and a newline, then the quoted pair at the start of the next line, outside the list item | a service publishing port 8080 to target 80 | `     - "8080:80"` on one line | not executed | Services.PortLinesAsWritten | Services.PortsLines |
