# Botyto/agents — the repository's own logic, modelled in Dafny

The repository builds chat agents on top of AutoGen. Some of them can look up
the weather, some get their tools from registered toolsets, and one builder
hands out capabilities picked by a language model. A control script manages
patches to a local AutoGen checkout. Most of the code is glue, but these
pieces make decisions of their own, and this project models them and proves
what they promise:

- **Toolset registry** (`Toolsets`): an append-only, process-wide list of
  toolsets. `find` returns the first toolset with the given name, or raises
  ValueError.
- **OpenWeatherMap client** (`OpenWeatherMap`):
  - the language allow-list checked at construction;
  - the query string `_get` builds;
  - the geocoding limit;
  - the icon and weather-condition tables and their lookups;
  - the decoding of One Call and geocoding answers into records;
  - the `exclude` join of `one_call`, which fails (see Findings).
- **Weather results** (`WeatherFormat`, `LocationCache`, `WeatherToolset`,
  `WeatherProvider`). There are two weather front ends: the backend toolset
  (plain functions that keep their state on the agent) and the provider
  class the weather agent calls. Both share:
  - a lower-cased place-name table filled from the geocoder;
  - a formatter whose rain, snow and alert keys appear only under
    conditions;
  - a projection of alerts onto their descriptions.

  The toolset switches alerts off for good. The provider takes a flag.
- **Agents** (`InnerChat`, `AutogenAgents`, `ApiAgents`). Both agent classes
  answer through an inner assistant and user proxy. The model covers:
  - which tools the inner pair learns about, and the docstring each must
    have;
  - how the backend agent picks its system message and description;
  - which toolset functions it registers, skips or binds to itself;
  - how the assistant is primed with every message but the last;
  - which of the assistant's and the proxy's replies is passed back.

  The weather agent is an API agent over three weather tools.
- **Capability builder** (`CapabilityBuilder`):
  - the list of class names shown to the model;
  - the comma-separated reply read back and matched against the
    capabilities, in list order;
  - the selection stored in the agent's configuration;
  - the build step, which skips an empty capability list and fails on
    anything else.
- **Control script** (`AutogenCtl`):
  - choosing the next patch file name: the smallest number whose zero-padded
    three-digit prefix starts no existing file;
  - the one-letter command dispatch.

Where the source keeps state (the registry, the agents' inner records, the
location tables, the builder's configurations), the model has classes whose
methods are proved against specification functions. Pure parts are
functions with lemmas. The following are inputs to the model:

- the HTTP requests: the geocoder's answer, and `one_call` as a function of
  its positional arguments;
- AutoGen's inner agents: the exchange of messages, and the proxy's reply;
- the language model's reply;
- the directory listing;
- the command line.

## Model

| member | source | states |
|---|---|---|
| Toolsets.Lookup | backend/agents/engine/toolset.py:40-44 | Succeeds exactly when some registered toolset has the name. The toolset returned is the first with that name. Otherwise the error is ValueError "Toolset <name> not found". |
| Toolsets.LookupAfterRegister | backend/agents/engine/toolset.py:36-44 | After one more registration, an earlier toolset of the name still wins; otherwise the new one answers if its name matches, else not found. |
| Toolsets.DuplicateNameFindsEarlier | backend/agents/engine/toolset.py:36-43 | Of two toolsets registered under one name, lookup returns the earlier. |
| Toolsets.Registry.constructor | backend/agents/engine/toolset.py:33 | The registry starts empty. |
| Toolsets.Registry.Register | backend/agents/engine/toolset.py:36-37 | Appends the toolset at the end; earlier entries stay as they were, in order. |
| Toolsets.Registry.Find | backend/agents/engine/toolset.py:40-44 | Its scan returns exactly what Lookup specifies (first match or not-found), and it modifies nothing. |
| OpenWeatherMap.NewApi | openweathermap.py:39-43 | Construction succeeds exactly when the language is on the allow-list, keeping key, units and language; otherwise AssertionError "Unsupported language: <language>". |
| OpenWeatherMap.RequestParameters | openweathermap.py:46-51 | Read back at '&', the requested query is the caller's parameters (none when the query is empty, so no stray separator) followed by appid, units, lang and appid a second time. |
| OpenWeatherMap.RequestQuery | openweathermap.py:47-51 | The query `_get` requests: the caller's query and a separating "&" when it is non-empty, then appid, units and lang, then appid again. Its contract is stated by RequestParameters. |
| OpenWeatherMap.KeyText | openweathermap.py:50-51 | The API key as the f-string prints it: the key itself, or "None" when there is none. Used by RequestQuery. |
| OpenWeatherMap.GeocodeQuery | openweathermap.py:73-75 | Any limit above 5 fails the assertion; otherwise the query starts with `q=<query>`. |
| OpenWeatherMap.ExcludeParameter | openweathermap.py:57 | As written, the join succeeds only for an empty exclude list; any other list raises TypeError. |
| OpenWeatherMap.OneCall | openweathermap.py:56-59 | A non-empty exclude list raises TypeError before any request; an empty one requests with an empty exclude text. |
| OpenWeatherMap.ExcludeValues | openweathermap.py:15-20 | One section name per excluded section, in order, each the section's API value. |
| OpenWeatherMap.ExcludeText | openweathermap.py:57 | The corrected exclude text: the sections' API values joined by ",". Its contract is stated by ExcludeTextNamesSections. |
| OpenWeatherMap.ExcludeTextNamesSections | openweathermap.py:57 | The corrected exclude text, split at commas, gives back the excluded sections' names in order. |
| OpenWeatherMap.IconUrl | openweathermap.py:85-88 | Only sizes 2 and 4 are accepted (AssertionError otherwise); the URL lies under the icon base. |
| OpenWeatherMap.IconUrlNamesCode | openweathermap.py:85-88 | The URL names the day code when day is asked for and the night code otherwise. |
| OpenWeatherMap.FindIcon | openweathermap.py:90-97 | Only the first two characters of a code count; a known prefix gives its table icon, anything else the "unknown" icon 01d/01n. |
| OpenWeatherMap.FindIconInvertsCodes | openweathermap.py:100-110 | Every table icon is found again from its own day code and from its night code. |
| OpenWeatherMap.IndexByCode | openweathermap.py:186 | Every listed condition's code is a key, and every key holds a listed condition whose code is that key. |
| OpenWeatherMap.FindCondition | openweathermap.py:121-126 | The result always has the code asked for; a known code gives the table entry, an unknown one group "Unknown", description "unknown" and the "50" icon. |
| OpenWeatherMap.ParseWeatherDetails | openweathermap.py:297-301 | Succeeds exactly on a dict with id, main, description and icon; `main` is carried over. |
| OpenWeatherMap.ParseRain | openweathermap.py:352-356 | Succeeds exactly on a dict (otherwise no `get`); the amount is the "1h" entry, None when absent. |
| OpenWeatherMap.ParseCurrent | openweathermap.py:380-397 | Succeeds exactly on a dict with every required key whose rain and snow are dicts and whose weather decodes; temperature, wind speed, rain, snow and weather are the data's. |
| OpenWeatherMap.ParseMinutely | openweathermap.py:400-406 | With the timestamp left undecoded, succeeds exactly on a dict with dt and precipitation. |
| OpenWeatherMap.ParseHourly | openweathermap.py:427-443 | Succeeds exactly on a dict with every required key whose rain and snow are dicts and whose weather decodes; temperature, wind speed, rain, snow and weather are the data's. |
| OpenWeatherMap.ParseDailyFeelsLike | openweathermap.py:446-457 | Succeeds exactly on a dict with the four periods. |
| OpenWeatherMap.ParseDailyTemp | openweathermap.py:459-466 | Succeeds exactly on a dict with the four periods, min and max. |
| OpenWeatherMap.ParseDaily | openweathermap.py:492-513 | Succeeds exactly on a dict with every required key whose `temp`, `feels_like` and weather entries decode; its rain and snow are the raw values, its temperatures the decoded `temp` entry. |
| OpenWeatherMap.ParseAlert | openweathermap.py:516-530 | With the start and end timestamps left undecoded, succeeds exactly on a dict with all six alert keys; the description is carried over. |
| OpenWeatherMap.ParseSection | openweathermap.py:548-552 | An absent key gives None; a present key succeeds exactly when its value parses, giving that value. |
| OpenWeatherMap.ParseOneCall | openweathermap.py:543-552 | Succeeds exactly when the four header keys are there and each present section parses. The header values are carried over. Each optional section is present iff its key is in the data. The current record is the decoding of its entry; the minutely, hourly, daily and alert lists are the item-by-item decodings, in order. |
| OpenWeatherMap.ParseGeocodeResult | openweathermap.py:197-203 | Succeeds exactly on a dict with name, lat, lon and country; lat and lon are carried over. |
| OpenWeatherMap.ParseGeocode | openweathermap.py:76 | A list answer gives one result per item, in order, or the first item's failure. |
| JsonValue.Field | openweathermap.py:384 | `d[key]`: the value for a key of a dict, KeyError for a missing key, TypeError for anything not a dict. |
| JsonValue.ParseList | openweathermap.py:549 | A list comprehension over a decoded value: a list is parsed item by item; a non-empty string or dict fails, an empty one yields nothing; anything else is not iterable. |
| Outcomes.MapEach | openweathermap.py:76 | Every item mapped in order exactly when all succeed; otherwise the failure of the first item that fails. |
| WeatherFormat.HourlyEntries | agents/weather.py:82 | One formatter entry per hour, in order; no hourly section gives none. |
| WeatherFormat.DailyEntries | agents/weather.py:90 | One formatter entry per day, in order; no daily section gives none. |
| WeatherFormat.ProcessAlerts | agents/weather.py:45-48 | No alerts give an empty list; otherwise one description per alert, in order. |
| WeatherFormat.PutIf | agents/weather.py:60-71 | Conditional insertion: the key is set exactly when the condition holds; every other key keeps its value. |
| WeatherFormat.Format | agents/weather.py:50-72 | Fails exactly on an unreadable rain or snow value. Always has temp_c, wind_meter_per_sec and weather (the weather group). Rain and snow keys appear iff reported, with their amount. Alerts appear iff shown. No other keys. |
| WeatherFormat.FloatReportedWhenPositive | agents/weather.py:60-62 | A float amount gets its key exactly when positive, and is reported as itself. |
| WeatherFormat.AddPrecipitation | backend/agents/integrations/weather.py:47-56 | A float sets the key only when positive. A record sets it to its last-hour amount. Any other truthy value fails on `one_h`. |
| WeatherFormat.FormatResponse | backend/agents/integrations/weather.py:38-59 | Building the dictionary step by step gives exactly the result Format describes. |
| WeatherFormat.FormatPeriods | agents/weather.py:82 | One entry per period, in order, each the period formatted without alerts, or the one_h failure. |
| WeatherFormat.PeriodsCarryNoAlerts | agents/weather.py:82 | No formatted period ever has an alerts key. |
| WeatherFormat.CurrentResult | agents/weather.py:74-77 | The current reading formatted with the response's alerts; a response without a current section fails. |
| WeatherFormat.ForecastResult | agents/weather.py:79-85 | Keys are the section's key plus alerts exactly when alerts are shown. Under the key, the formatted periods; a missing section is not iterable (TypeError). |
| WeatherFormat.ForecastReport | backend/agents/integrations/weather.py:73-76 | Building the forecast dictionary gives exactly what ForecastResult describes. |
| WeatherFormat.FrontEndOneCallsRaise | agents/weather.py:76 | With `one_call` as written, each of the three calls the front ends make raises TypeError. |
| LocationCache.FromGeocoder | agents/weather.py:38-41 | A miss answers with the first result's coordinates, the geocoder's own failure, or ValueError "Could not find location: <location>" for no results. |
| LocationCache.LatLonCache.constructor | agents/weather.py:32 | The table starts empty. |
| LocationCache.LatLonCache.LatLon | agents/weather.py:34-43 | A hit on the lower-cased name answers from the table without asking the geocoder. A miss asks about the name as given. A found pair is cached under the lower-cased name; a failure leaves the table unchanged. Keys stay lower-cased. |
| LocationCache.RepeatLookupHits | agents/weather.py:35-43 | After a successful lookup, any spelling differing only in case hits the table with the same coordinates. |
| WeatherToolset.AgentState.Init | backend/agents/integrations/weather.py:10-15 | Does nothing when the client is already attached; otherwise attaches a metric, English client with the environment's key and an empty table. |
| WeatherToolset.AgentState.LatLon | backend/agents/integrations/weather.py:18-29 | Fails on a missing attribute before `_init`, touching nothing; otherwise it is the table lookup, leaving the table unchanged on failure, and the geocoder is asked about the place only on a miss. |
| WeatherToolset.AgentState.Current | backend/agents/integrations/weather.py:62-66 | The place is looked up, asking the geocoder only on a miss. Then the current reading is requested with the other sections excluded and formatted. The result never has alerts. |
| WeatherToolset.AgentState.ForecastHourly | backend/agents/integrations/weather.py:69-76 | The place is looked up, asking the geocoder only on a miss. The hours are formatted under "hourly", and that is the only key. |
| WeatherToolset.AgentState.ForecastDaily | backend/agents/integrations/weather.py:79-86 | The place is looked up, asking the geocoder only on a miss. The days are formatted under "daily", and that is the only key. |
| WeatherToolset.FormattedEntriesHaveNoAlerts | backend/agents/integrations/weather.py:57-58 | With alerts switched off, no formatted entry has an alerts key, whatever alerts the response holds. |
| WeatherProvider.OpenWeatherMapProvider.constructor | agents/weather.py:29-32 | A metric, English client with the given key, the alerts flag, and an empty table. |
| WeatherProvider.OpenWeatherMapProvider.LatLon | agents/weather.py:34-43 | The table lookup, with the hit/miss/failure behaviour above; the geocoder is asked about the place only on a miss. |
| WeatherProvider.OpenWeatherMapProvider.Current | agents/weather.py:74-77 | The place is looked up, asking the geocoder only on a miss, then the current reading is formatted with alerts as the flag allows. |
| WeatherProvider.OpenWeatherMapProvider.ForecastHourly | agents/weather.py:79-85 | The place is looked up, asking the geocoder only on a miss. The hours are formatted without alerts under "hourly", with the alert descriptions beside them when shown. |
| WeatherProvider.OpenWeatherMapProvider.ForecastDaily | agents/weather.py:87-93 | The place is looked up, asking the geocoder only on a miss. The days are formatted without alerts under "daily", with the alert descriptions beside them when shown. |
| WeatherProvider.ForecastListsEveryPeriod | agents/weather.py:90 | A daily forecast lists exactly one entry per day of the response, in order, each that day formatted without alerts. |
| InnerChat.DocumentedPrefix | backend/agents/engine/agent.py:98-100 | Counts the tools from the front that have a non-empty docstring; the tool after them has none. |
| InnerChat.InnerPair.constructor | backend/agents/engine/agent.py:54-68 | The inner pair starts with no tools and no chat records. |
| InnerChat.InnerPair.RegisterFunctions | backend/agents/engine/agent.py:98-102 | Both inner agents learn the tools in order, up to the first without a docstring. That tool fails with AssertionError "Tool <name> must have a docstring."; the tools before it stay registered. |
| InnerChat.InnerPair.GenerateApiReply | backend/agents/engine/agent.py:114-134 | Both records are reset, and the assistant is primed with every message but the last. The last message's content is sent. The reply is the one ChooseReply picks; the tools are unchanged. |
| InnerChat.History | backend/agents/engine/agent.py:119 | `messages[0 : len-1]`: every message but the last, in order; none for an empty list. |
| InnerChat.HistoryThenLast | backend/agents/engine/agent.py:119-123 | The history followed by the last message is the whole conversation. |
| InnerChat.LastContent | backend/agents/engine/agent.py:123 | An empty conversation has no last message (IndexError); otherwise the last message's content, or KeyError. |
| InnerChat.ChooseReply | backend/agents/engine/agent.py:131-134 | The flag is always true. A "" proxy reply passes back the assistant's content. A None reply passes back None. Any other reply passes back its own content, which only a dict has. |
| InnerChat.ApiReply | backend/agents/engine/agent.py:119-134 | The reply for known messages: the last content's failure, IndexError when the proxy has no record, or ChooseReply of the assistant's last record and the proxy's reply. |
| InnerChat.Conversation | backend/agents/engine/agent.py:111-112 | Given messages are used; otherwise the sender's record, empty when there is none. |
| InnerChat.RecordedAfter | backend/agents/engine/agent.py:111-112 | Reading a sender without a record adds an empty one; nothing else changes. |
| AutogenAgents.RegistersTools | backend/agents/engine/agent.py:70 | Tools are registered exactly when the inner model configuration is neither None nor False (the same test as agents/api.py:59). Used by NewAutogenAgent and NewApiAgent. |
| AutogenAgents.SystemMessage | backend/agents/engine/agent.py:29-35 | With exactly one toolset, it succeeds iff the toolset is found, even when a message is given. A given message wins, then that toolset's prompt, then the default prompt. The result is never empty. |
| AutogenAgents.Description | backend/agents/engine/agent.py:36 | The given description, or the default one when it is missing or empty. |
| AutogenAgents.TakesSelf | backend/agents/engine/agent.py:92-93 | A function takes the agent exactly when it has parameters and the first is named `self`. Used by Wrap. |
| AutogenAgents.Wrap | backend/agents/engine/agent.py:92-94 | A function whose first parameter is `self` is bound to the agent; any other is registered as it is. |
| AutogenAgents.Selected | backend/agents/engine/agent.py:88-95 | Functions already in the function map are skipped. Every other function is kept and wrapped, and nothing else is. |
| AutogenAgents.SelectedAppend | backend/agents/engine/agent.py:88-95 | Selection keeps the functions' order. |
| AutogenAgents.RegisterOne | backend/agents/engine/agent.py:85-96 | An unknown toolset fails with nothing done. A found one has its init hook called, if present. Only documented tools whose names are not in the map are registered. |
| AutogenAgents.RegisterOneStopsAtFirstUndocumented | backend/agents/engine/agent.py:85-102 | A found toolset's selected functions are registered in order up to the first without a docstring, which fails with AssertionError naming it. Registration succeeds exactly when the toolset is found and every selected function has a docstring. |
| AutogenAgents.Steps | backend/agents/engine/agent.py:84-96 | One registration per toolset name, in order. |
| AutogenAgents.RegisterAll | backend/agents/engine/agent.py:84-96 | What `_register_toolsets` does over the names: the per-name rounds composed in order, stopping at the first failure. Its contract is stated by RegisteredToolsAreChecked and RegistrationSucceedsIff, and RegisterToolsets is proved against it. |
| AutogenAgents.RegisteredToolsAreChecked | backend/agents/engine/agent.py:84-100 | Every tool registered over all toolsets has a docstring and a name not in the function map; a registration that succeeds found every toolset. |
| AutogenAgents.RegistrationSucceedsIff | backend/agents/engine/agent.py:84-102 | Registering the toolsets succeeds exactly when every one is found and every function selected from it has a docstring. |
| AutogenAgents.AutogenAgent.constructor | backend/agents/engine/agent.py:37-68 | Keeps the settled name, system message, description, function map and model configuration; the inner pair starts empty. |
| AutogenAgents.AutogenAgent.RegisterToolsets | backend/agents/engine/agent.py:78-96 | The hooks called and the tools both inner agents learn are exactly those of the toolsets, in order, up to and including the first failure. That failure ends the call. The inner chat records are unchanged. |
| AutogenAgents.AutogenAgent.RegisterEach | backend/agents/engine/agent.py:84-96 | The loop over the names accumulates each toolset's effects and stops at the first failure, leaving the inner chat records unchanged. |
| AutogenAgents.AutogenAgent.RegisterToolset | backend/agents/engine/agent.py:85-96 | One round of the loop does exactly what registering that toolset on its own does, and leaves the inner chat records unchanged. |
| AutogenAgents.AutogenAgent.Select | backend/agents/engine/agent.py:88-95 | The loop building the function list yields the Selected functions. |
| AutogenAgents.AutogenAgent.GenerateApiReply | backend/agents/engine/agent.py:104-134 | It replies to the given messages, or else to the sender's record (an empty record is added if there was none). The inner records afterwards are those of the exchange from the assistant primed with every message but the last (just the primed history when there is no last content). The tools and hooks are unchanged. |
| AutogenAgents.NewAutogenAgent | backend/agents/engine/agent.py:29-71 | A failing system-message lookup fails construction. Toolsets are registered only with a model configuration. Construction then fails exactly when registration fails. A built agent's inner chat records start empty. |
| ApiAgents.Directly | agents/api.py:68-71 | The tools, each registered as it is, in order. |
| ApiAgents.DirectRegistrationStopsAtFirstUndocumented | agents/api.py:67-71 | Registration gets through every tool iff all have docstrings; otherwise it stops at the first without one. |
| ApiAgents.ApiAgent.constructor | agents/api.py:25-57 | Stores the tool list unchanged, with the name, system message and model configuration; the inner pair starts empty. |
| ApiAgents.ApiAgent.RegisterFunctions | agents/api.py:67-71 | The agent's tools are registered in order up to the first without a docstring. It succeeds iff every tool has one; otherwise the error names that tool. The inner chat records are unchanged. |
| ApiAgents.ApiAgent.GenerateApiReply | agents/api.py:73-103 | It replies to the given messages or the sender's record, as the inner pair picks. The inner records afterwards are those of the exchange from the assistant primed with every message but the last (just the primed history when there is no last content); the tools are unchanged. |
| ApiAgents.NewApiAgent | agents/api.py:10-60 | Tools are registered only with a model configuration. Construction fails exactly when one of them lacks a docstring. A built agent has no recorded messages, the same tools for both inner agents and empty inner chat records. |
| ApiAgents.NewWeatherAgent | agents/weather.py:108-148 | An API agent over the three weather tools that passes its system message on unchanged; it never fails. Both inner agents learn the same tools, and it starts with no recorded messages and empty inner chat records. |
| CapabilityBuilder.ClassNames | backend/agents/engine/builder.py:47-50 | The capabilities' class names, in list order. |
| CapabilityBuilder.CapabilitiesText | backend/agents/engine/builder.py:47-50 | The capability list shown to the model: the class names joined by ", ". Read back by ShownListTokens and ShownListSelectsAll. |
| CapabilityBuilder.ReplyTokens | backend/agents/engine/builder.py:63-66 | One stripped token per comma-separated piece of the reply, in order. |
| CapabilityBuilder.Select | backend/agents/engine/builder.py:67-71 | A capability is selected exactly when its class name is among the tokens; unmatched tokens are dropped. |
| CapabilityBuilder.SelectAppend | backend/agents/engine/builder.py:67-71 | Selection keeps the capability list's order. |
| CapabilityBuilder.SelectAllNamed | backend/agents/engine/builder.py:67-71 | Naming every capability selects the whole list, in its order. |
| CapabilityBuilder.ShownListPieces | backend/agents/engine/builder.py:47-66 | Splitting the shown list at commas gives the first name, then each later name behind one space. |
| CapabilityBuilder.ShownListPieceStrips | backend/agents/engine/builder.py:63-66 | Stripping a piece of the shown list gives back its class name. |
| CapabilityBuilder.ShownListTokens | backend/agents/engine/builder.py:47-66 | Reading the shown list back gives the class names, one token per capability. |
| CapabilityBuilder.ShownListSelectsAll | backend/agents/engine/builder.py:47-72 | Replying with the list exactly as shown selects every capability, in order (no name holding a comma or edge space). |
| CapabilityBuilder.BuildAgentCapabilities | backend/agents/engine/builder.py:45-72 | The capabilities the reply names, as a subsequence of the list. |
| CapabilityBuilder.AttachOne | backend/agents/engine/builder.py:85-94 | An empty capability list is skipped. A missing key raises KeyError. A non-empty list raises StopIteration: stored capability objects never equal a class name. |
| CapabilityBuilder.AttachAll | backend/agents/engine/builder.py:84-94 | Succeeds exactly when every entry is an empty list; otherwise the first entry that is not one decides the failure. |
| CapabilityBuilder.CapabilitiesBuilder.constructor | backend/agents/engine/builder.py:30 | None or an empty list become the empty list. |
| CapabilityBuilder.CapabilitiesBuilder.AgentExpandConfig | backend/agents/engine/builder.py:45-76 | Stores the selection the reply names under the configuration's capabilities key. A configuration without a name raises KeyError, and one that already has a capabilities key raises TypeError; neither is changed. |
| CapabilityBuilder.CapabilitiesBuilder.BuildAgents | backend/agents/engine/builder.py:84-97 | Pairs agents with configurations up to the shorter list. It succeeds exactly when every paired configuration has an empty capability list. |
| AutogenCtl.Prefix | autogen_ctl.py:83 | `f"{num:03}"` is at least three characters long, and never shorter than the number's digits. |
| AutogenCtl.PrefixIsZeroPadded | autogen_ctl.py:83 | The prefix ends in the number's decimal digits, with only '0' before them. |
| AutogenCtl.LargeNumbersAreFree | autogen_ctl.py:82-91 | A number with more digits than the longest file name starts no name, so the search ends. |
| AutogenCtl.PatchPath | autogen_ctl.py:90 | The path returned for a number: the patch directory, "/", the zero-padded prefix and "-new-patch.diff". Used by NextPatchPath and EmptyDirectoryStartsAtZero. |
| AutogenCtl.NextPatchPath | autogen_ctl.py:80-91 | Returns `<dir>/<prefix>-new-patch.diff` for a number whose prefix starts no file name, while every smaller number's prefix starts one. It only reads the listing. |
| AutogenCtl.EmptyDirectoryStartsAtZero | autogen_ctl.py:81-90 | In an empty directory the number 0 is free and its path ends in 000-new-patch.diff. |
| AutogenCtl.Dispatch | autogen_ctl.py:130-136 | "s" sets up, "c" or "p" creates a patch, and any other character exits with status 1. Its contract is stated by ChooseCommand and LetterChoice. |
| AutogenCtl.ChooseCommand | autogen_ctl.py:129-136 | Fails with IndexError exactly on a blank choice. Otherwise it dispatches on the first non-blank character, lower-cased. |
| AutogenCtl.LStripPastBlank | autogen_ctl.py:129 | `lstrip` skips any white space put in front of a string. |
| AutogenCtl.LeadingSpaceIgnored | autogen_ctl.py:129 | White space before the choice does not change the command. |
| AutogenCtl.LetterChoice | autogen_ctl.py:129-136 | Whatever follows a leading letter: s/S sets up; c, C, p or P creates a patch; any other letter exits with status 1. |
| AutogenCtl.CommandLine | autogen_ctl.py:124-129 | The first argument is the choice when there is one, otherwise the answer typed at the prompt. |

## Left out

- HTTP and JSON plumbing: the session, `raise_for_status` and `response.json()` are not modelled. What the geocoder and `one_call` return is an input.
- URL parsing: `RequestQuery` takes the query component of the URL as given. The scheme, host, path and fragment that `urlparse`/`urlunparse` carry through are not modelled.
- `timemachine`, `day_summary`, `overview` and their response classes: no agent calls them, so they are not part of this model.
- Timestamps and numbers: the `datetime.fromtimestamp` conversions depend on the time zone, so timestamps are kept as the decoded values. A timestamp that is not a number, or is out of range, raises in the source but is accepted by the model (this affects ParseCurrent, ParseMinutely, ParseHourly, ParseDaily and ParseAlert). Numbers are opaque decoded values; only the `> 0` test on float rain or snow is modelled.
- OpenWeatherMap.ParseCurrent: states the fields the formatter reads (temperature, wind speed, rain, snow, weather), not every field it copies.
- OpenWeatherMap.ParseHourly: states the fields the formatter reads, not every field it copies.
- OpenWeatherMap.ParseDaily: states the fields the formatter reads, not every field it copies.
- The `weather` entry of a reading is decoded the way the code reads it, as a single dict. A list there fails with TypeError.
- AutoGen internals:
  - `register_for_llm`/`register_for_execution` are modelled as the inner agents' tool lists, and `reset` as clearing their chat records.
  - `send` and the assistant's answer are the `exchange` parameter; the proxy's `generate_reply` is the `execute` parameter.
  - `register_reply`, the `ConversableAgent` constructor and the `AgentBuilder` superclass are not modelled.
  - The deep copy of the model configuration is taken to equal the original.
- Agent constructor arguments that are only forwarded to AutoGen (termination test, reply limits, human input mode, function map and description of the API agent, code execution, default reply, chat messages) are not modelled. Both agents start with no recorded messages.
- A system message given as a list: the model's system message is a string or None.
- Calling a tool bound to the agent (`wrap_tool`) is not modelled. `functools.wraps` keeps the name and docstring, so the docstring check sees the tool's own.
- ApiAgents.NewWeatherAgent: the `weather_provider` argument is not modelled. The three tools are known only by their name, docstring and parameter; what a tool does when called (asking the provider for the current weather or a forecast) happens inside the `execute` input, so the link to WeatherProvider is not modelled.
- The weather agent's `DEFAULT_PROMPT` and `DEFAULT_DESCRIPTION` are never passed on by its constructor, so they are not modelled. The date in the prompt would need a clock.
- The link between the init hook recorded by `_register_toolsets` and what the weather toolset's `_init` does is not modelled; each is modelled on its own.
- The language-model call of the capability builder: its reply is a parameter. The prompt text and the `print` are not modelled.
- The build step's behaviour after `next()`: instantiating and attaching a capability is never reached for configurations this builder stores, and configurations from elsewhere (for example holding class-name strings) are not modelled. A capabilities key present with the value None is modelled as absent, which raises KeyError where the source would skip it.
- The agents returned by the superclass's build step are opaque values.
- An agent configuration is modelled by its name and capabilities entries only. Its other keys are not modelled; they only fill in the prompt, where a key that is not a string would make `format(**config, ...)` raise TypeError.
- CapabilityBuilder.CapabilitiesBuilder.BuildAgents: takes the configurations returned by the superclass's `_build_agents` to be one configuration dict per built agent, in the agents' order. The superclass is not part of this model. If it returns a dict keyed by agent, `zip` would pair agents with keys, and indexing a key with "capabilities" would raise TypeError instead.
- ApiAgent's default system message applies only when the caller leaves the argument out. The model has no omitted arguments: every caller passes a system message or None.
- The control script's git and pip operations (`setup`, `create_patch` and their helpers), `print`, `input` and `exit` are not modelled. The command line and the typed answer are parameters; exiting is the `Exit(1)` command.
- NextPatchPath: the source lists the directory once per number tried; the model takes one listing, so a directory that changes during the call is not modelled.
- NextPatchPath: `os.path.abspath(os.path.join(...))` is modelled as joining the directory and the file name with "/". This takes the directory to be an absolute, normalised path, as the patch directory is.
- LocationCache.LatLonCache.LatLon: `str.lower` is modelled for ASCII letters only, so two spellings of a place name that differ in the case of non-ASCII letters get different keys in the model. The command letters s, c and p are lower-cased exactly.
- The front ends pass the cached `(lat, lon)` pair positionally into `one_call(lon, lat, ...)`. The `one_call` input receives the pair in that order; the coordinates the request would then carry are not modelled.
- Audio transcription (`api/oai_whisper.py`), the Django models and commands, `backend/agents/engine/executor.py`, `group.py` and `test.py` are outside the modelled core. They are either scripts against live services, schemas without behaviour, or unfinished code.

## Findings

| source | as written | input that shows it | evidently intended | confidence | as-written member | corrected member |
|---|---|---|---|---|---|---|
| openweathermap.py:57 | `",".join(exclude)` joins `ExcludeInfo` enum members, which are not strings, so `str.join` raises TypeError for any non-empty list | `exclude=[ExcludeInfo.MINUTELY, ExcludeInfo.HOURLY, ExcludeInfo.DAILY]`, the list `current` passes (agents/weather.py:76) | the sections' values joined by commas: `minutely,hourly,daily` | high; not executed | OpenWeatherMap.ExcludeParameter | OpenWeatherMap.ExcludeTextNamesSections |
