/** The GLFW 3 constants the window layer uses: key codes (section "Keyboard keys"
    of the GLFW input reference) and the key/button actions. Integer values are
    GLFW's published ones, so distinct names carry distinct codes. */
module GlfwCodes {

  /** Actions reported by the key and mouse-button callbacks. */
  const RELEASE: int := 0
  const PRESS: int := 1
  const REPEAT: int := 2

  /** Key codes. */
  const KEY_UNKNOWN: int := -1
  const KEY_SPACE: int := 32
  const KEY_APOSTROPHE: int := 39
  const KEY_COMMA: int := 44
  const KEY_MINUS: int := 45
  const KEY_PERIOD: int := 46
  const KEY_SLASH: int := 47
  const KEY_0: int := 48
  const KEY_1: int := 49
  const KEY_2: int := 50
  const KEY_3: int := 51
  const KEY_4: int := 52
  const KEY_5: int := 53
  const KEY_6: int := 54
  const KEY_7: int := 55
  const KEY_8: int := 56
  const KEY_9: int := 57
  const KEY_SEMICOLON: int := 59
  const KEY_EQUAL: int := 61
  const KEY_A: int := 65
  const KEY_B: int := 66
  const KEY_C: int := 67
  const KEY_D: int := 68
  const KEY_E: int := 69
  const KEY_F: int := 70
  const KEY_G: int := 71
  const KEY_H: int := 72
  const KEY_I: int := 73
  const KEY_J: int := 74
  const KEY_K: int := 75
  const KEY_L: int := 76
  const KEY_M: int := 77
  const KEY_N: int := 78
  const KEY_O: int := 79
  const KEY_P: int := 80
  const KEY_Q: int := 81
  const KEY_R: int := 82
  const KEY_S: int := 83
  const KEY_T: int := 84
  const KEY_U: int := 85
  const KEY_V: int := 86
  const KEY_W: int := 87
  const KEY_X: int := 88
  const KEY_Y: int := 89
  const KEY_Z: int := 90
  const KEY_LEFT_BRACKET: int := 91
  const KEY_BACKSLASH: int := 92
  const KEY_RIGHT_BRACKET: int := 93
  const KEY_GRAVE_ACCENT: int := 96
  const KEY_WORLD_1: int := 161
  const KEY_WORLD_2: int := 162
  const KEY_ESCAPE: int := 256
  const KEY_ENTER: int := 257
  const KEY_TAB: int := 258
  const KEY_BACKSPACE: int := 259
  const KEY_INSERT: int := 260
  const KEY_DELETE: int := 261
  const KEY_RIGHT: int := 262
  const KEY_LEFT: int := 263
  const KEY_DOWN: int := 264
  const KEY_UP: int := 265
  const KEY_PAGE_UP: int := 266
  const KEY_PAGE_DOWN: int := 267
  const KEY_HOME: int := 268
  const KEY_END: int := 269
  const KEY_CAPS_LOCK: int := 280
  const KEY_SCROLL_LOCK: int := 281
  const KEY_NUM_LOCK: int := 282
  const KEY_PRINT_SCREEN: int := 283
  const KEY_PAUSE: int := 284
  const KEY_F1: int := 290
  const KEY_F2: int := 291
  const KEY_F3: int := 292
  const KEY_F4: int := 293
  const KEY_F5: int := 294
  const KEY_F6: int := 295
  const KEY_F7: int := 296
  const KEY_F8: int := 297
  const KEY_F9: int := 298
  const KEY_F10: int := 299
  const KEY_F11: int := 300
  const KEY_F12: int := 301
  const KEY_F13: int := 302
  const KEY_F14: int := 303
  const KEY_F15: int := 304
  const KEY_F16: int := 305
  const KEY_F17: int := 306
  const KEY_F18: int := 307
  const KEY_F19: int := 308
  const KEY_F20: int := 309
  const KEY_F21: int := 310
  const KEY_F22: int := 311
  const KEY_F23: int := 312
  const KEY_F24: int := 313
  const KEY_F25: int := 314
  const KEY_KP_0: int := 320
  const KEY_KP_1: int := 321
  const KEY_KP_2: int := 322
  const KEY_KP_3: int := 323
  const KEY_KP_4: int := 324
  const KEY_KP_5: int := 325
  const KEY_KP_6: int := 326
  const KEY_KP_7: int := 327
  const KEY_KP_8: int := 328
  const KEY_KP_9: int := 329
  const KEY_KP_DECIMAL: int := 330
  const KEY_KP_DIVIDE: int := 331
  const KEY_KP_MULTIPLY: int := 332
  const KEY_KP_SUBTRACT: int := 333
  const KEY_KP_ADD: int := 334
  const KEY_KP_ENTER: int := 335
  const KEY_KP_EQUAL: int := 336
  const KEY_LEFT_SHIFT: int := 340
  const KEY_LEFT_CONTROL: int := 341
  const KEY_LEFT_ALT: int := 342
  const KEY_LEFT_SUPER: int := 343
  const KEY_RIGHT_SHIFT: int := 344
  const KEY_RIGHT_CONTROL: int := 345
  const KEY_RIGHT_ALT: int := 346
  const KEY_RIGHT_SUPER: int := 347
  const KEY_MENU: int := 348
}
