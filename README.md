# class-builder in Dafny

A model of the two text generators of iqomp/class-builder, with proofs about it.

- **The value serializer** (`Source`, in `source.dfy`) turns a PHP value into PHP literal text:
  - a string is quoted with single quotes;
  - an integer is written in decimal;
  - a float is written as PHP's `(string)` text of it, which the model takes as given;
  - `null`, `true` and `false` are written as keywords;
  - an array is written in one of three layouts: `[]`, a list, or key/value pairs;
  - every other kind becomes the placeholder `UNKNOW DATA TYPE`.
- **The class emitter** (`Builder`, in `builder.dfy`) turns a class description into the text of a PHP file, in this order:
  - the `<?php` line;
  - an optional doc block;
  - an optional namespace line;
  - the signature, with its `extends` and `implements` clauses;
  - the opening brace;
  - the properties;
  - the methods, each with an empty body;
  - the closing brace, after the trailing newlines have been removed.
- **The PHP built-ins they use** (`PhpStrings`, in `php_strings.dfy`): `str_repeat(' ', n)`, `implode`, `chop` with a newline, and `(string)` of an integer.
- **PHP values and arrays** (`PhpValues`, in `php_values.dfy`): the values and ordered arrays the generators receive, and PHP's truthiness.

Every PHP function that builds its result with `.=` in a loop is a Dafny `method` with the same loop.
Each one is proved to return exactly the text of a specification function (`Literal`, `IndexedLiteral`, `AssocLiteral`, `CommentBlock`, `Clause`, `PropertiesText`, `MethodsText`, `FileText`, ...).
Lemmas then tie those functions to independent descriptions of the layout:
- `implode`-style joins of the rendered elements;
- the exact text of the first and last lines;
- the behaviour of `chop`;
- concrete examples.

Four loop bodies are separate methods, each proved against the text of one element: `Source.GenIndexedItem`, `Source.GenPairLine`, `Builder.GenProperty` and `Builder.GenMethod`.
The first statements of `build` are two methods as well: `Builder.GenOpening` and `Builder.GenSignature`.
This keeps each proof small. The statements follow the PHP code's order. An `isset` guard on a list becomes a call on the empty list, and dead assignments are omitted.

The model follows the code in these details:
- an inline list is joined by `,` with no space;
- associative pairs have no comma between them, and each pair line is indented by the current indentation written twice;
- the placeholder is spelled `UNKNOW DATA TYPE`;
- the generated file has no import block, no class or method doc comment and no method body content;
- interfaces get no special case and there is no option to force the inline layout;
- the code performs no validation of its own: an empty `extends` list or any string is accepted as given.

## Model

| member | source | states |
|---|---|---|
| Source.ToSource | src/Source.php:97-120 | returns `Literal(v, space)`: the value's literal text, with the string case taken before the numeric one, arrays rendered by `fromArray`, and the placeholder for every other kind |
| Source.FromArray | src/Source.php:13-26 | `[]` for the empty array; the associative layout when the key list differs from `0..n-1`; the list layout otherwise |
| Source.FromArrayIndexed | src/Source.php:28-74 | the first loop with `break` decides that the list is inline exactly when every element is a bool, int, float or string; the second loop writes exactly `IndexedLiteral` |
| Source.GenIndexedItem | src/Source.php:52-63 | one list element: a comma for a truthy key (and a newline when not inline), `space + 4` spaces when not inline, then the value rendered at `space + 4` |
| Source.FromAssocArray | src/Source.php:76-95 | exactly `AssocLiteral`: `[`, then a newline and the pair's line for each pair in order, then a newline, `space` spaces and `]` |
| Source.GenPairLine | src/Source.php:85-88 | one pair: `2 * space` spaces, the key rendered at indentation 0, ` => `, and the value rendered at `space + 4` |
| Source.IsIndexedIff | src/Source.php:19 | the list path is taken exactly when the i-th key is the integer i for every i (both directions) |
| Source.IndexedItemsJoin | src/Source.php:51-64 | in a list, the first element gets no separator and every later one gets it, so the items are the padded elements joined by `,` or by `,` and a newline |
| Source.AssocPairsJoin | src/Source.php:83-89 | the pairs are a newline followed by their lines joined by newlines, so no comma appears between pairs |
| Source.InlineLayout | src/Source.php:30-71 | a non-empty list of scalars is `[`, the elements rendered and joined by a bare comma, `]`, with no newline or indentation |
| Source.MultiLineLayout | src/Source.php:31-69 | a list holding a null, an array or another kind is `[` and a newline, the elements each padded by `space + 4` spaces and joined by `,` and a newline, then a newline, `space` spaces and `]` |
| Source.AssocLayout | src/Source.php:81-92 | a non-empty array that is not a list is `[` and a newline, the pair lines joined by newlines, then a newline, `space` spaces and `]` |
| Source.LeafLiterals | src/Source.php:99-119 | a string (numeric ones too) is quoted without escaping; a non-negative integer is a decimal key that reads back as its value, and a negative one is `-` followed by such a key; float text, `null`, `true`, `false` and the placeholder are as stated; `[]` is the empty array; scalars ignore the indentation |
| Source.InlineExample | src/Source.php:46-71 | `['a', 'b']` renders as `['a','b']` |
| Source.NestedExample | src/Source.php:47-69 | `[['a']]` puts the inner list, inline, on its own line at four spaces |
| Source.AssocExample | src/Source.php:81-92 | `['x' => 1, 'y' => null]` at indentation 4 has its pairs at eight spaces, with no comma, and the bracket at four |
| Source.ReorderedKeysExample | src/Source.php:19-20 | `[1 => 'b', 0 => 'a']` takes the associative path |
| PhpStrings.Spaces | src/Source.php:43-44 | `str_repeat(' ', n)` has length n and only spaces |
| PhpStrings.ChopNewlines | src/Builder.php:217 | `chop` with a newline returns a prefix that does not end in a newline, and removes only newlines |
| PhpValues.FalseValues | src/Builder.php:143 | PHP's truthiness: false exactly for `null`, `false`, `0`, the float texts `0` and `-0`, `''`, `'0'` and the empty array |
| PhpValues.FalseKeys | src/Source.php:52 | an array key is false exactly when it is `0`, `''` or `'0'` |
| PhpStrings.JoinEnds | src/Builder.php:155 | `implode`: empty for no items; otherwise starts with the first item and ends with the last |
| PhpStrings.IntToText | src/Source.php:103-104 | `(string)` of an integer: a non-negative one is a decimal key that reads back as it; a negative one is `-` followed by the decimal key of its magnitude |
| PhpStrings.NatToTextRoundTrip | src/Source.php:103-104 | the decimal text of a natural number is a decimal key and reads back as that number |
| PhpStrings.DecimalKeyRoundTrip | src/Builder.php:44 | every decimal key string is the decimal text of the number it denotes |
| Builder.GenComment | src/Builder.php:13-27 | exactly `CommentBlock`: the indented `/**` line, one indented ` * ` line per entry, the indented ` */` with no newline after it |
| Builder.CommentBlockLines | src/Builder.php:18-24 | the doc block is its lines joined by newlines: opening, one line per entry in order, closing |
| Builder.Lookup | src/Builder.php:44 | `$uses[$name] ?? $name`: a non-decimal name is returned unchanged; any other result is the entry at an index whose decimal text is the name |
| Builder.LookupIndex | src/Builder.php:44 | the decimal text of an index of the list reads that entry |
| Builder.ResolveNames | src/Builder.php:42-45 | the lookup loop computes `Resolved(names)`: each name looked up in the list being built |
| Builder.ResolvedIdentity | src/Builder.php:42-47 | when no name is a decimal string (true of every class name), the names come out unchanged and in order |
| Builder.ResolvedDecimalName | src/Builder.php:44 | a decimal name reads an earlier entry of the list being built: `['A', '0']` becomes `['A', 'A']` |
| Builder.GenExtends | src/Builder.php:29-50 | exactly `Clause("extends", names)` |
| Builder.GenImplements | src/Builder.php:52-73 | exactly `Clause("implements", names)` |
| Builder.ClauseLayout | src/Builder.php:35-47 | no name gives ` kw `; one name, whatever it is, gives ` kw X` with no newline; several names, when no name is a decimal string, give a newline, four spaces, `kw `, and the names joined by `, ` |
| Builder.ExtendsExample | src/Builder.php:35-47 | `extends` with `A` and `B` gives a newline, then `    extends A, B` |
| Builder.ImplementPrefix | src/Builder.php:136-156 | the present words among visibility, `static` (only when truthy) and type, in this order, each followed by one space; empty exactly when none is present |
| Builder.ImplementSuffix | src/Builder.php:158-165 | empty exactly when there is no return type; otherwise `: ` followed by the type |
| Builder.ImplementArguments | src/Builder.php:120-134 | the arguments' texts in order, joined by `, `; each is its prefix, `$name`, and ` = ` with the default rendered at indentation 0 when there is one |
| Builder.GenProperty | src/Builder.php:105-114 | one property: four spaces, the prefix, `$name`, ` = ` and the default rendered at 4 when the key exists, `;` and two newlines |
| Builder.GenProperties | src/Builder.php:99-118 | every property's text, in declaration order |
| Builder.PropertyNullDefault | src/Builder.php:109-112 | a default that is present but null is still written, as ` = null` |
| Builder.PropertyNoDefault | src/Builder.php:104-114 | without a default, `;` follows the name directly |
| Builder.PropertyTextEnds | src/Builder.php:114 | every property ends with `;` and two newlines |
| Builder.GenMethod | src/Builder.php:82-93 | one method: four spaces, prefix, `function name`, ` (`, the arguments, `)`, the suffix, a newline, then the empty body `    {` and `    }` with two newlines |
| Builder.GenMethods | src/Builder.php:75-97 | every method's text, in declaration order |
| Builder.MethodTextEnds | src/Builder.php:92-93 | every method ends with the closing line of its empty body, `    }`, and two newlines |
| Builder.PropertiesStart | src/Builder.php:104-115 | the properties' text is empty exactly when there are none, and otherwise starts with a space |
| Builder.MethodsStart | src/Builder.php:81-94 | the methods' text is empty exactly when there are none, and otherwise starts with a space |
| Builder.MembersStart | src/Builder.php:209-215 | the class body is empty exactly when there are no properties and no methods |
| Builder.GenOpening | src/Builder.php:178-190 | the `<?php` line, then the doc block only when `comments` is set, then the namespace line only when `namespace` is set |
| Builder.GenSignature | src/Builder.php:192-203 | type, a space, the name, the `extends` clause when set, then the `implements` clause when set |
| Builder.Build | src/Builder.php:172-222 | exactly `FileText(spec)`: the header and the members with their trailing newlines chopped, then a newline and `}` |
| Builder.BuildLayout | src/Builder.php:205-219 | the header is kept whole and only the members' trailing newlines are cut (an empty class gives the header and `}`); the file starts with `<?php` and a newline and ends with one newline and `}`, with no blank line before it |
| Builder.BuildEnding | src/Builder.php:209-219 | the file ends with the last method's `    }`, or else the last property's `;`, or else the opening `{`, followed by a newline and `}` |
| Builder.ParseUsesClasses | src/Builder.php:167-170 | the alias list is empty for every class description |
| Builder.UsesIgnored | src/Builder.php:167-176 | the alias list is always empty and never affects the file |
| Builder.BuildExample | src/Builder.php:172-222 | class `Foo` with `public $bar = 1` gives the `<?php` line, a blank line, `class Foo`, `{`, `    public $bar = 1;` and `}` |

## Left out

- `PHP_EOL` is fixed to `"\n"`. `chop($tx, PHP_EOL)` is modelled as removing every trailing `"\n"`.
- Float formatting: a float is `Float(text)`, carrying the text PHP's `(string)` cast produces, taken as given. Its truthiness, used only for `static`, reads that text (`"0"` and `"-0"` are false).
- PHP's integer width: integers are unbounded. The generators only print integers, so no wrap-around can occur in them.
- PHP's runtime type tests: objects, resources and closures are all `Other`. `is_numeric` on a numeric string never runs, because the `is_string` branch comes first.
- Names of properties, methods and arguments are the keys of PHP arrays. In PHP they are unique and may be integers. The model takes each name as its text and does not require names to be unique.
- Visibility, type and return type are taken as strings. An entry that is set to `null` counts as absent, as `isset` does.
- Missing `properties`, `methods` and `arguments` entries are modelled as empty lists. `comments`, `extends` and `implements` stay optional, because a set but empty list still writes text.
- Reading class descriptions and writing the generated file are not part of the library, so they are not modelled.
- The alias lookups in `genExtends` and `genImplements` index the list being built (`$uses` is reset just before). They are modelled as they run, and `Builder.ResolvedIdentity` shows they change nothing for class names. The `uses` parameter of these functions and of `genProperties` and `genMethods` is accepted and ignored, as in the PHP code.
- Indentation is a natural number. PHP's `str_repeat` rejects a negative `$space`, which the library itself never passes (it passes 0, 4 or `$space + 4`).
- Array keys are taken as the caller gives them. PHP keeps keys unique and stores a decimal string key such as `'0'` as the integer `0`. The model does not enforce either rule, so `StrKey("0")` takes the associative path where PHP's `['0' => 'a']` would give `['a']`.
- Descriptions of the wrong shape, such as a string `extends` or an attribute that is not an array, make PHP throw a `TypeError` at the `array` parameter types. The model's datatypes admit only well-typed descriptions.
