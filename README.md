# VPN client session controller and backend router, modelled in Dafny

The system is a VPN front end, "SecureVPN". It has two small pieces of logic.

- **The client page** (`src/pages/Index.tsx`) keeps seven pieces of state:
  - a connected flag;
  - the selected server, one of six hard-coded entries;
  - an auto-connect switch;
  - four telemetry counters: elapsed seconds, download and upload speed, and data used.

  A button toggles the connection. Going online zeroes the elapsed time and the data used. While the page is connected, a once-per-second interval adds one to the elapsed time, draws new random speeds and adds a random amount to the data used. The elapsed time is shown as `HH:MM:SS`.
- **The backend** (`backend/vpn/index.py`) is one HTTP handler. It dispatches on the HTTP method and the `action` query parameter:
  - `OPTIONS` answers a CORS preflight;
  - `GET servers` returns a static server listing;
  - `POST connect` inserts a row into the `vpn_sessions` table and returns the row's SERIAL id;
  - `POST disconnect` sets a row's status to `disconnected`;
  - anything else gets a 404.

Modules:

- `Wrappers` (`wrappers.dfy`): `Option`, the missing key or SQL NULL.
- `TimeFormat` (`time_format.dfy`): `formatTime` and its properties. `ParseTime` is an inverse that the model defines so it can state the round trip; the page has no such function.
- `Dashboard` (`dashboard.dfy`): the page's server list and a `Dashboard` class. The class has one field per `useState` hook. Its methods are the toggle, the one-second tick, server selection and the auto-connect switch.
- `VpnApi` (`vpn_api.dfy`): the request model, the routing function `Dispatch`, the `Database` class and `Handler`. `Database` holds the `vpn_sessions` table as `map<int, SessionRow>` plus the next value of the SERIAL sequence.
- `ServerLists` (`server_lists.dfy`): the page's list and the backend's listing agree.

The page's code has no connecting state, makes no calls from the client, has no failure recovery and no auto-connect timer, and does not lock the selection while connected. The model follows the code:

- the page goes straight from disconnected to connected;
- it makes no network call;
- the auto-connect switch only stores a boolean;
- a server can be selected while connected.

Two methods with no contract of their own are usage examples, not properties: `Dashboard.ConnectForThreeSeconds` walks one page through connect, three ticks, disconnect and one more tick; `VpnApi.TwoSessions` connects twice, closes the first session and lists the servers against one table. Each asserts the state it reaches on those fixed inputs.

## Model

| member | source | states |
|---|---|---|
| TimeFormat.Split | src/pages/Index.tsx:56-59 | hours*3600 + minutes*60 + seconds equals the count, and minutes and seconds are both below 60 |
| TimeFormat.SplitUnique | src/pages/Index.tsx:56-59 | every clock whose minutes and seconds are below 60 is the split of its own total, so the decomposition is unique |
| TimeFormat.Decimal | src/pages/Index.tsx:60 | `toString` of a whole number is all digits and at least one character long; it has one digit exactly below 10 and at most two exactly below 100; it starts with '0' only for zero |
| TimeFormat.ParseDecimalOfDecimal | src/pages/Index.tsx:60 | the decimal digits of n read back as n |
| TimeFormat.Field | src/pages/Index.tsx:60 | `padStart(2, '0')` of a field gives at least two digits, and exactly two for every value below 100 |
| TimeFormat.FieldRoundTrip | src/pages/Index.tsx:60 | a padded field reads back as its value; the leading '0' adds nothing |
| TimeFormat.TwoDigitField | src/pages/Index.tsx:58-60 | a field below 100 is its tens digit followed by its units digit |
| TimeFormat.FormatTime | src/pages/Index.tsx:56-61 | `formatTime` itself; it has no contract of its own, and its properties are the lemmas `FormatTimeSpelled`, `FormatTimeShape`, `FormatTimeRoundTrip`, `FormatTimeInjective` and `FormatTimeFixedWidth` |
| TimeFormat.FormatTimeShape | src/pages/Index.tsx:56-61 | the output is digits with ':' third and sixth from the end; it has at least 8 characters, and exactly 8 if and only if the count is below 360000 |
| TimeFormat.FormatTimeRoundTrip | src/pages/Index.tsx:56-61 | reading the output back gives the original count of seconds |
| TimeFormat.FormatTimeInjective | src/pages/Index.tsx:56-61 | different counts are shown as different strings |
| TimeFormat.FormatTimeFixedWidth | src/pages/Index.tsx:56-61 | below 100 hours the output is `HH:MM:SS`: ':' at positions 2 and 5, and the three digit pairs spell the hours, minutes and seconds of the split |
| Dashboard.Servers | src/pages/Index.tsx:17-24 | six entries with pairwise distinct ids, non-negative ping and load in 0..100 |
| Dashboard.Scaled | src/pages/Index.tsx:40-41 | `Math.floor(draw * width) + low` for a draw in [0, 1) lies in [low, low + width) |
| Dashboard.Dashboard.constructor | src/pages/Index.tsx:27-33 | initial state: disconnected, first server selected, auto-connect on, all counters zero |
| Dashboard.Dashboard.ToggleConnection | src/pages/Index.tsx:48-54 | flips the connected flag; going online zeroes the elapsed time and data used, going offline keeps them; the selection, the switch and both speeds are unchanged |
| Dashboard.Dashboard.Tick | src/pages/Index.tsx:35-46 | while connected: elapsed time +1, download speed in 80..99, upload speed in 40..49, data used grows by less than 0.5 and never shrinks; while disconnected nothing changes; the flag, the selection and the switch are never changed |
| Dashboard.Dashboard.SelectServer | src/pages/Index.tsx:195 | the clicked entry of the list becomes the selection, connected or not; nothing else changes, and the selection stays a member of the list |
| Dashboard.Dashboard.SetAutoConnect | src/pages/Index.tsx:176-179 | stores the switch value and changes nothing else |
| Dashboard.Dashboard.ElapsedText | src/pages/Index.tsx:151 | the elapsed-time text reads back as the elapsed seconds |
| ServerLists.ClientListMatchesCatalogue | src/pages/Index.tsx:17-24 | the page's list matches the backend listing entry by entry on id, name, city, flag, ping and load |
| VpnApi.Catalogue | backend/vpn/index.py:27-88 | six servers with ids "1" to "6", pairwise distinct; every ping is non-negative, every load is in 0..100 and every status is "online" |
| VpnApi.MethodOf | backend/vpn/index.py:10 | `event.get('httpMethod', 'GET')`: the method, or GET when the key is absent; no contract of its own, its effect is stated through `Dispatch` |
| VpnApi.ActionOf | backend/vpn/index.py:24 | `event.get('queryStringParameters', {}).get('action', 'servers')`: the action, or `servers` when either key is absent; no contract of its own, its effect is stated through `Dispatch` |
| VpnApi.BodyOf | backend/vpn/index.py:101 | `event.get('body', '{}')` decoded: the body, or the empty object when the key is absent, so both fields read as `None`; no contract of its own, its effect is stated through `Handler` |
| VpnApi.Dispatch | backend/vpn/index.py:10-171 | OPTIONS is the preflight whatever the action; GET/servers, POST/connect and POST/disconnect each reach their branch if and only if the (method, action) pair matches; everything else is 404; a missing method means GET and a missing action means `servers`, so an empty event gets the listing |
| VpnApi.SetStatus | backend/vpn/index.py:149-152 | the UPDATE keeps the table's id set; only the row whose id equals the key gets the new status; a NULL key or an unknown id leaves the table as it was |
| VpnApi.Database.constructor | backend/vpn/index.py:108-115 | a new table has no rows and its id sequence starts at 1 |
| VpnApi.Database.Insert | backend/vpn/index.py:117-121 | adds exactly one row, with status connected and the given server id; the returned id belongs to no earlier row; the sequence advances by one |
| VpnApi.Database.MarkDisconnected | backend/vpn/index.py:149-152 | the table becomes `SetStatus(old table, key, Disconnected)`; the sequence is unchanged |
| VpnApi.Handler | backend/vpn/index.py:7-179 | the responses: preflight 200 with an empty body, listing 200 with the catalogue, connect 200 with the new row's fresh id, disconnect 200 success even when no row matches, everything else 404 "Not found"; only connect and disconnect change the table |

## Left out

- Rendering: the page's JSX, CSS classes, icons and UI components are presentation only.
- Hook lifecycle: React's hooks, `setInterval`/`clearInterval` and effect cleanup are not modelled. An interval exists exactly while the page is connected, so `Tick` is one second passing: it runs the interval body when connected and does nothing otherwise.
- Randomness: `Math.random()` is a parameter of `Tick`, one real number in [0, 1) per draw.
- Floating point: `dataUsed` is an exact `real`, and the floors use exact reals. `toFixed(2)` formatting of `dataUsed` is left out.
- Large counts: JavaScript's `toString` switches to exponent notation from 10^21 on. `TimeFormat.Decimal` always writes plain digits, which matches every reachable count of seconds.
- VpnApi.Database: psycopg2 connections, the `DATABASE_URL` lookup, `CREATE TABLE IF NOT EXISTS`, commit and close are I/O. The table is in memory, and the SERIAL sequence is a counter that never reuses a value. That counter is unbounded: SERIAL is a 4-byte integer, so `nextval` fails once 2^31-1 ids have been handed out, while `Insert` always succeeds.
- VpnApi.Handler: database errors are not modelled. In the source a failed `psycopg2.connect` (backend/vpn/index.py lines 105 and 146) or a failed statement raises, and the handler returns no response; the model's `Handler` always answers. The model's table also exists from the start, while the source creates it only on the connect path (lines 108-115). So in the source a disconnect before any connect, with no table created elsewhere, fails at the UPDATE instead of answering 200. Concurrent invocations are modelled one at a time: each handler call makes at most one write, taken as atomic, and the freshness and frame laws hold under that reading.
- VpnApi.SessionRow: the `connected_at` timestamp filled in by `NOW()` is left out; it is a clock reading that no part of the handler reads back.
- VpnApi.Event: JSON decoding of the request body is left out, along with its failures on malformed or null bodies. A value other than an integer for `sessionId`, or other than a string for `serverId`, is also out of the model. `body` is the decoded object; a missing body is the empty object.
- VpnApi.ActionOf: a `queryStringParameters` key holding null would make the Python `.get` raise. The model has only an absent key or a map.
- VpnApi.Event: a key that is present but holds null cannot be represented. Python's `dict.get(k, d)` returns that null rather than the default, so for `httpMethod` null, or for `action` null with any method other than OPTIONS, the source matches none of its branches and answers 404; OPTIONS still gets the preflight, as `Dispatch` gives it whatever the action (lines 10, 24 and 171 of `backend/vpn/index.py`). The model's `None` means only an absent key, and `Dispatch` maps an absent one to the default.
- VpnApi.Response: headers, `isBase64Encoded`, the `success` flag and the message texts are reduced to an abstract body kind and the status code.
