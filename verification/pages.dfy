/**
 * The fixed lines of the three HTML layouts of tebook/renderer.py, in the
 * order the layouts emit them: the head with its style sheet, the extra
 * styles of the tutor format, the drawing overlay that opens the body, and
 * the navigation and scripts that follow the slides. Only their order and
 * place in the page matter to the model.
 */
module Pages {

  /** Slides layout: document head and base styles. */
  function SlidesHead(): (lines: seq<string>)
    ensures |lines| == 41
  {
    seq(41, i requires 0 <= i < 41 => SlidesHeadLine(i))
  }

  function SlidesHeadLine(i: nat): string
  {
    match i
    case 0 => "<!DOCTYPE html>"
    case 1 => "<html lang='uk'>"
    case 2 => "<head>"
    case 3 => "    <meta charset='UTF-8'>"
    case 4 => "    <meta name='viewport' content='width=device-width, initial-scale=1.0'>"
    case 5 => "    <title>Презентація</title>"
    case 6 => "    <link rel='stylesheet' href='https://cdn.jsdelivr.net/npm/@picocss/pico@2/css/pico.min.css'>"
    case 7 => "    <style>"
    case 8 => "        body { position: relative; margin: 0; padding: 0; }"
    case 9 => "        .slide-container { position: relative; }"
    case 10 => "        .slide { display: none; padding: 2rem; min-height: 80vh; text-align: center; }"
    case 11 => "        .slide.active { display: flex; flex-direction: column; justify-content: center; align-items: center; }"
    case 12 => "        .slide > * { text-align: center; }"
    case 13 => "        .slide h1 { font-size: 2.5rem; margin-bottom: 1rem; text-align: center; }"
    case 14 => "        .slide h2 { font-size: 2rem; margin-bottom: 1rem; text-align: center; }"
    case 15 => "        .slide code { background: #f4f4f4; padding: 0.2rem 0.4rem; border-radius: 0.25rem; }"
    case 16 => "        .slide pre { background: #f4f4f4; padding: 1rem; border-radius: 0.5rem; overflow-x: auto; }"
    case 17 => "        .slide .definition { border: 2px solid #333; padding: 1rem; margin: 1rem 0; border-radius: 0.5rem; }"
    case 18 => "        .slide .task { background: #fff3cd; padding: 1rem; border-left: 4px solid #ffc107; margin: 1rem 0; }"
    case 19 => "        .slide .table-container { overflow-x: auto; margin: 1rem 0; }"
    case 20 => "        .slide table { width: 100%; border-collapse: collapse; }"
    case 21 => "        .slide table th, .slide table td { border: 1px solid #ddd; padding: 0.5rem; }"
    case 22 => "        .slide table th { background: #f4f4f4; }"
    case 23 => "        .slide .italic { font-style: italic; }"
    case 24 => "        .slide .bold { font-weight: bold; }"
    case 25 => "        .slide img { max-width: 100%; height: auto; }"
    case 26 => "        .navigation { position: fixed; bottom: 2rem; right: 2rem; z-index: 1000; }"
    case 27 => "        .navigation button { margin: 0.25rem; }"
    case 28 => "        .slide-counter { position: fixed; bottom: 2rem; left: 2rem; z-index: 1000; }"
    case 29 => "        #drawingCanvas { position: fixed; top: 0; left: 0; width: 100%; height: 100%; z-index: 500; pointer-events: none; }"
    case 30 => "        #drawingCanvas.drawing { pointer-events: all; }"
    case 31 => "        .drawing-toggle-btn { position: fixed; top: 2rem; right: 2rem; z-index: 1001; width: 50px; height: 50px; border-radius: 50%; background: #0066cc; color: white; border: none; cursor: pointer; font-size: 24px; box-shadow: 0 2px 8px rgba(0,0,0,0.3); display: flex; align-items: center; justify-content: center; }"
    case 32 => "        .drawing-toggle-btn:hover { background: #0052a3; }"
    case 33 => "        .drawing-controls { position: fixed; top: 6rem; right: 2rem; z-index: 1001; background: white; padding: 1rem; border-radius: 0.5rem; box-shadow: 0 2px 8px rgba(0,0,0,0.2); display: none; }"
    case 34 => "        .drawing-controls.visible { display: block; }"
    case 35 => "        .drawing-controls button { margin: 0.25rem; display: block; width: 100%; }"
    case 36 => "        .color-picker { display: flex; gap: 0.5rem; margin: 0.5rem 0; flex-wrap: wrap; }"
    case 37 => "        .color-btn { width: 30px; height: 30px; border: 2px solid #333; border-radius: 50%; cursor: pointer; }"
    case 38 => "        .color-btn.active { border-color: #0066cc; border-width: 3px; }"
    case 39 => "        .eraser-btn { width: 30px; height: 30px; border: 2px solid #333; border-radius: 4px; cursor: pointer; background: white; display: flex; align-items: center; justify-content: center; font-size: 18px; }"
    case _ => "        .eraser-btn.active { border-color: #0066cc; border-width: 3px; background: #f0f0f0; }"
  }

  /** Slides layout: styles added for the tutor format. */
  function SlidesTutorStyles(): (lines: seq<string>)
    ensures |lines| == 12
  {
    seq(12, i requires 0 <= i < 12 => SlidesTutorStylesLine(i))
  }

  function SlidesTutorStylesLine(i: nat): string
  {
    match i
    case 0 => "        /* Викладацький формат - розширені стилі */"
    case 1 => "        .slide { background: linear-gradient(135deg, #f5f7fa 0%, #c3cfe2 100%); }"
    case 2 => "        .slide h1 { color: #1a237e; text-shadow: 2px 2px 4px rgba(0,0,0,0.1); }"
    case 3 => "        .slide h2 { color: #283593; border-bottom: 2px solid #3f51b5; padding-bottom: 0.5rem; }"
    case 4 => "        .slide .definition { background: white; box-shadow: 0 4px 6px rgba(0,0,0,0.1); border-left: 5px solid #3f51b5; }"
    case 5 => "        .slide .task { background: linear-gradient(135deg, #fff3cd 0%, #ffe082 100%); box-shadow: 0 2px 4px rgba(0,0,0,0.1); }"
    case 6 => "        .slide code { background: #263238; color: #aed581; font-weight: bold; }"
    case 7 => "        .slide pre { background: #263238; color: #aed581; border: 2px solid #37474f; }"
    case 8 => "        .slide table { box-shadow: 0 2px 8px rgba(0,0,0,0.1); }"
    case 9 => "        .slide table th { background: linear-gradient(135deg, #3f51b5 0%, #5c6bc0 100%); color: white; font-weight: bold; }"
    case 10 => "        .slide table tr:nth-child(even) { background: #f5f5f5; }"
    case _ => "        .slide table tr:hover { background: #e3f2fd; transition: background 0.3s; }"
  }

  /** Slides layout: end of the head, drawing overlay, slide container. */
  function SlidesBodyOpen(): (lines: seq<string>)
    ensures |lines| == 19
  {
    seq(19, i requires 0 <= i < 19 => SlidesBodyOpenLine(i))
  }

  function SlidesBodyOpenLine(i: nat): string
  {
    match i
    case 0 => "    </style>"
    case 1 => "</head>"
    case 2 => "<body>"
    case 3 => "    <canvas id='drawingCanvas'></canvas>"
    case 4 => "    <button class='drawing-toggle-btn' id='drawingToggleBtn' title='Малювання'>✏️</button>"
    case 5 => "    <div class='drawing-controls' id='drawingControls'>"
    case 6 => "        <button id='clearDrawing'>Очистити</button>"
    case 7 => "        <div class='color-picker'>"
    case 8 => "            <div class='color-btn active' data-color='#000000' style='background: #000000;' title='Чорний'></div>"
    case 9 => "            <div class='color-btn' data-color='#ff0000' style='background: #ff0000;' title='Червоний'></div>"
    case 10 => "            <div class='color-btn' data-color='#0000ff' style='background: #0000ff;' title='Синій'></div>"
    case 11 => "            <div class='color-btn' data-color='#00ff00' style='background: #00ff00;' title='Зелений'></div>"
    case 12 => "            <div class='color-btn' data-color='#ffff00' style='background: #ffff00;' title='Жовтий'></div>"
    case 13 => "            <div class='color-btn' data-color='#ff00ff' style='background: #ff00ff;' title='Пурпурний'></div>"
    case 14 => "            <div class='color-btn' data-color='#ffffff' style='background: #ffffff;' title='Білий'></div>"
    case 15 => "            <div class='eraser-btn' id='eraserBtn' title='Ластик'>🧹</div>"
    case 16 => "        </div>"
    case 17 => "    </div>"
    case _ => "    <div class='container'>"
  }

  /** Slides layout: end of the container and the navigation buttons. */
  function SlidesNavigation(): (lines: seq<string>)
    ensures |lines| == 5
  {
    seq(5, i requires 0 <= i < 5 => SlidesNavigationLine(i))
  }

  function SlidesNavigationLine(i: nat): string
  {
    match i
    case 0 => "    </div>"
    case 1 => "    <div class='navigation'>"
    case 2 => "        <button onclick='previousSlide()'>← Попередній</button>"
    case 3 => "        <button onclick='nextSlide()'>Наступний →</button>"
    case _ => "    </div>"
  }

  /** Slides layout: navigation and drawing script, end of the page. */
  function SlidesScript(): (lines: seq<string>)
    ensures |lines| == 135
  {
    seq(135, i requires 0 <= i < 135 => SlidesScriptLine(i))
  }

  function SlidesScriptLine(i: nat): string
  {
    match i
    case 0 => "    <script>"
    case 1 => "        let currentSlide = 0;"
    case 2 => "        const slides = document.querySelectorAll('.slide');"
    case 3 => "        const totalSlides = slides.length;"
    case 4 => ""
    case 5 => "        function showSlide(n) {"
    case 6 => "            slides.forEach(s => s.classList.remove('active'));"
    case 7 => "            if (n >= totalSlides) currentSlide = 0;"
    case 8 => "            if (n < 0) currentSlide = totalSlides - 1;"
    case 9 => "            if (n >= 0 && n < totalSlides) currentSlide = n;"
    case 10 => "            slides[currentSlide].classList.add('active');"
    case 11 => "            document.getElementById('counter').textContent = `${currentSlide + 1} / ${totalSlides}`;"
    case 12 => "        }"
    case 13 => ""
    case 14 => "        function nextSlide() { showSlide(currentSlide + 1); }"
    case 15 => "        function previousSlide() { showSlide(currentSlide - 1); }"
    case 16 => ""
    case 17 => "        document.addEventListener('keydown', (e) => {"
    case 18 => "            if (e.key === 'ArrowRight' || e.key === ' ') nextSlide();"
    case 19 => "            if (e.key === 'ArrowLeft') previousSlide();"
    case 20 => "        });"
    case 21 => ""
    case 22 => "        // Малювання"
    case 23 => "        const canvas = document.getElementById('drawingCanvas');"
    case 24 => "        const ctx = canvas.getContext('2d');"
    case 25 => "        let isDrawing = false;"
    case 26 => "        let currentColor = '#000000';"
    case 27 => ""
    case 28 => "        function resizeCanvas() {"
    case 29 => "            canvas.width = window.innerWidth;"
    case 30 => "            canvas.height = window.innerHeight;"
    case 31 => "        }"
    case 32 => "        resizeCanvas();"
    case 33 => "        window.addEventListener('resize', resizeCanvas);"
    case 34 => ""
    case 35 => "        let isDrawingMode = false;"
    case 36 => "        let isEraser = false;"
    case 37 => "        "
    case 38 => "        const drawingToggleBtn = document.getElementById('drawingToggleBtn');"
    case 39 => "        const drawingControls = document.getElementById('drawingControls');"
    case 40 => "        "
    case 41 => "        drawingToggleBtn.addEventListener('click', function() {"
    case 42 => "            if (drawingControls.classList.contains('visible')) {"
    case 43 => "                drawingControls.classList.remove('visible');"
    case 44 => "                canvas.classList.remove('drawing');"
    case 45 => "                isDrawingMode = false;"
    case 46 => "            } else {"
    case 47 => "                drawingControls.classList.add('visible');"
    case 48 => "                canvas.classList.add('drawing');"
    case 49 => "                isDrawingMode = true;"
    case 50 => "            }"
    case 51 => "        });"
    case 52 => ""
    case 53 => "        document.getElementById('clearDrawing').addEventListener('click', function() {"
    case 54 => "            ctx.clearRect(0, 0, canvas.width, canvas.height);"
    case 55 => "        });"
    case 56 => ""
    case 57 => "        document.querySelectorAll('.color-btn').forEach(btn => {"
    case 58 => "            btn.addEventListener('click', function() {"
    case 59 => "                document.querySelectorAll('.color-btn').forEach(b => b.classList.remove('active'));"
    case 60 => "                if (document.getElementById('eraserBtn')) {"
    case 61 => "                    document.getElementById('eraserBtn').classList.remove('active');"
    case 62 => "                }"
    case 63 => "                this.classList.add('active');"
    case 64 => "                currentColor = this.getAttribute('data-color');"
    case 65 => "                isEraser = false;"
    case 66 => "            });"
    case 67 => "        });"
    case 68 => ""
    case 69 => "        if (document.getElementById('eraserBtn')) {"
    case 70 => "            document.getElementById('eraserBtn').addEventListener('click', function() {"
    case 71 => "                document.querySelectorAll('.color-btn').forEach(b => b.classList.remove('active'));"
    case 72 => "                this.classList.toggle('active');"
    case 73 => "                isEraser = this.classList.contains('active');"
    case 74 => "            });"
    case 75 => "        }"
    case 76 => ""
    case 77 => "        canvas.addEventListener('mousedown', function(e) {"
    case 78 => "            if (!isDrawingMode) return;"
    case 79 => "            e.stopPropagation();"
    case 80 => "            isDrawing = true;"
    case 81 => "            ctx.beginPath();"
    case 82 => "            ctx.moveTo(e.clientX, e.clientY);"
    case 83 => "            if (isEraser) {"
    case 84 => "                ctx.globalCompositeOperation = 'destination-out';"
    case 85 => "                ctx.lineWidth = 10;"
    case 86 => "            } else {"
    case 87 => "                ctx.globalCompositeOperation = 'source-over';"
    case 88 => "                ctx.strokeStyle = currentColor;"
    case 89 => "                ctx.lineWidth = 3;"
    case 90 => "            }"
    case 91 => "        });"
    case 92 => ""
    case 93 => "        canvas.addEventListener('mousemove', function(e) {"
    case 94 => "            if (!isDrawing) return;"
    case 95 => "            e.stopPropagation();"
    case 96 => "            ctx.lineTo(e.clientX, e.clientY);"
    case 97 => "            ctx.lineCap = 'round';"
    case 98 => "            ctx.stroke();"
    case 99 => "        });"
    case 100 => ""
    case 101 => "        canvas.addEventListener('mouseup', function() {"
    case 102 => "            isDrawing = false;"
    case 103 => "        });"
    case 104 => ""
    case 105 => "        canvas.addEventListener('mouseleave', function() {"
    case 106 => "            isDrawing = false;"
    case 107 => "        });"
    case 108 => ""
    case 109 => "        // Touch events for mobile"
    case 110 => "        canvas.addEventListener('touchstart', function(e) {"
    case 111 => "            if (!isDrawing) return;"
    case 112 => "            e.preventDefault();"
    case 113 => "            const touch = e.touches[0];"
    case 114 => "            ctx.beginPath();"
    case 115 => "            ctx.moveTo(touch.clientX, touch.clientY);"
    case 116 => "        });"
    case 117 => ""
    case 118 => "        canvas.addEventListener('touchmove', function(e) {"
    case 119 => "            if (!isDrawing) return;"
    case 120 => "            e.preventDefault();"
    case 121 => "            const touch = e.touches[0];"
    case 122 => "            ctx.lineTo(touch.clientX, touch.clientY);"
    case 123 => "            ctx.strokeStyle = currentColor;"
    case 124 => "            ctx.lineWidth = 3;"
    case 125 => "            ctx.lineCap = 'round';"
    case 126 => "            ctx.stroke();"
    case 127 => "        });"
    case 128 => ""
    case 129 => "        canvas.addEventListener('touchend', function() {"
    case 130 => "            isDrawing = false;"
    case 131 => "        });"
    case 132 => "    </script>"
    case 133 => "</body>"
    case _ => "</html>"
  }

  /** Document layout: document head and base styles. */
  function DocumentHead(): (lines: seq<string>)
    ensures |lines| == 36
  {
    seq(36, i requires 0 <= i < 36 => DocumentHeadLine(i))
  }

  function DocumentHeadLine(i: nat): string
  {
    match i
    case 0 => "<!DOCTYPE html>"
    case 1 => "<html lang='uk'>"
    case 2 => "<head>"
    case 3 => "    <meta charset='UTF-8'>"
    case 4 => "    <meta name='viewport' content='width=device-width, initial-scale=1.0'>"
    case 5 => "    <title>Презентація - Документ</title>"
    case 6 => "    <link rel='stylesheet' href='https://cdn.jsdelivr.net/npm/@picocss/pico@2/css/pico.min.css'>"
    case 7 => "    <style>"
    case 8 => "        body { position: relative; margin: 0; padding: 0; }"
    case 9 => "        .document-container { max-width: 900px; margin: 0 auto; padding: 2rem; }"
    case 10 => "        .slide-block { margin-bottom: 3rem; padding: 2rem; border-left: 4px solid #0066cc; background: #f8f9fa; border-radius: 0.5rem; opacity: 0; transform: translateY(20px); transition: opacity 0.6s ease, transform 0.6s ease; display: none; text-align: center; }"
    case 11 => "        .slide-block.visible { opacity: 1; transform: translateY(0); display: block; }"
    case 12 => "        .slide-block h1 { font-size: 2.5rem; margin-bottom: 1rem; color: #0066cc; text-align: center; }"
    case 13 => "        .slide-block h2 { font-size: 2rem; margin-bottom: 1rem; color: #0066cc; text-align: center; }"
    case 14 => "        .slide-block code { background: #e9ecef; padding: 0.2rem 0.4rem; border-radius: 0.25rem; }"
    case 15 => "        .slide-block pre { background: #e9ecef; padding: 1rem; border-radius: 0.5rem; overflow-x: auto; }"
    case 16 => "        .slide-block .definition { border: 2px solid #333; padding: 1rem; margin: 1rem 0; border-radius: 0.5rem; background: white; }"
    case 17 => "        .slide-block .task { background: #fff3cd; padding: 1rem; border-left: 4px solid #ffc107; margin: 1rem 0; }"
    case 18 => "        .slide-block .table-container { overflow-x: auto; margin: 1rem 0; }"
    case 19 => "        .slide-block table { width: 100%; border-collapse: collapse; }"
    case 20 => "        .slide-block table th, .slide-block table td { border: 1px solid #ddd; padding: 0.5rem; }"
    case 21 => "        .slide-block table th { background: #e9ecef; }"
    case 22 => "        .slide-block .italic { font-style: italic; }"
    case 23 => "        .slide-block img { max-width: 100%; height: auto; }"
    case 24 => "        #drawingCanvas { position: fixed; top: 0; left: 0; width: 100%; height: 100%; z-index: 500; pointer-events: none; }"
    case 25 => "        #drawingCanvas.drawing { pointer-events: all; }"
    case 26 => "        .drawing-toggle-btn { position: fixed; top: 2rem; right: 2rem; z-index: 1001; width: 50px; height: 50px; border-radius: 50%; background: #0066cc; color: white; border: none; cursor: pointer; font-size: 24px; box-shadow: 0 2px 8px rgba(0,0,0,0.3); display: flex; align-items: center; justify-content: center; }"
    case 27 => "        .drawing-toggle-btn:hover { background: #0052a3; }"
    case 28 => "        .drawing-controls { position: fixed; top: 6rem; right: 2rem; z-index: 1001; background: white; padding: 1rem; border-radius: 0.5rem; box-shadow: 0 2px 8px rgba(0,0,0,0.2); display: none; }"
    case 29 => "        .drawing-controls.visible { display: block; }"
    case 30 => "        .drawing-controls button { margin: 0.25rem; display: block; width: 100%; }"
    case 31 => "        .color-picker { display: flex; gap: 0.5rem; margin: 0.5rem 0; flex-wrap: wrap; }"
    case 32 => "        .color-btn { width: 30px; height: 30px; border: 2px solid #333; border-radius: 50%; cursor: pointer; }"
    case 33 => "        .color-btn.active { border-color: #0066cc; border-width: 3px; }"
    case 34 => "        .eraser-btn { width: 30px; height: 30px; border: 2px solid #333; border-radius: 4px; cursor: pointer; background: white; display: flex; align-items: center; justify-content: center; font-size: 18px; }"
    case _ => "        .eraser-btn.active { border-color: #0066cc; border-width: 3px; background: #f0f0f0; }"
  }

  /** Document layout: styles added for the tutor format. */
  function DocumentTutorStyles(): (lines: seq<string>)
    ensures |lines| == 9
  {
    seq(9, i requires 0 <= i < 9 => DocumentTutorStylesLine(i))
  }

  function DocumentTutorStylesLine(i: nat): string
  {
    match i
    case 0 => "        /* Викладацький формат - розширені стилі */"
    case 1 => "        .slide-block { background: linear-gradient(135deg, #f5f7fa 0%, #c3cfe2 100%); border-left-color: #3f51b5; }"
    case 2 => "        .slide-block h1 { color: #1a237e; text-shadow: 2px 2px 4px rgba(0,0,0,0.1); }"
    case 3 => "        .slide-block h2 { color: #283593; border-bottom: 2px solid #3f51b5; padding-bottom: 0.5rem; }"
    case 4 => "        .slide-block .definition { background: white; box-shadow: 0 4px 6px rgba(0,0,0,0.1); border-left: 5px solid #3f51b5; }"
    case 5 => "        .slide-block .task { background: linear-gradient(135deg, #fff3cd 0%, #ffe082 100%); box-shadow: 0 2px 4px rgba(0,0,0,0.1); }"
    case 6 => "        .slide-block code { background: #263238; color: #aed581; font-weight: bold; }"
    case 7 => "        .slide-block pre { background: #263238; color: #aed581; border: 2px solid #37474f; }"
    case _ => "        .slide-block table { box-shadow: 0 2px 8px rgba(0,0,0,0.1); }"
  }

  /** Document layout: end of the head, drawing overlay, block container. */
  function DocumentBodyOpen(): (lines: seq<string>)
    ensures |lines| == 19
  {
    seq(19, i requires 0 <= i < 19 => DocumentBodyOpenLine(i))
  }

  function DocumentBodyOpenLine(i: nat): string
  {
    match i
    case 0 => "    </style>"
    case 1 => "</head>"
    case 2 => "<body>"
    case 3 => "    <canvas id='drawingCanvas'></canvas>"
    case 4 => "    <button class='drawing-toggle-btn' id='drawingToggleBtn' title='Малювання'>✏️</button>"
    case 5 => "    <div class='drawing-controls' id='drawingControls'>"
    case 6 => "        <button id='clearDrawing'>Очистити</button>"
    case 7 => "        <div class='color-picker'>"
    case 8 => "            <div class='color-btn active' data-color='#000000' style='background: #000000;' title='Чорний'></div>"
    case 9 => "            <div class='color-btn' data-color='#ff0000' style='background: #ff0000;' title='Червоний'></div>"
    case 10 => "            <div class='color-btn' data-color='#0000ff' style='background: #0000ff;' title='Синій'></div>"
    case 11 => "            <div class='color-btn' data-color='#00ff00' style='background: #00ff00;' title='Зелений'></div>"
    case 12 => "            <div class='color-btn' data-color='#ffff00' style='background: #ffff00;' title='Жовтий'></div>"
    case 13 => "            <div class='color-btn' data-color='#ff00ff' style='background: #ff00ff;' title='Пурпурний'></div>"
    case 14 => "            <div class='color-btn' data-color='#ffffff' style='background: #ffffff;' title='Білий'></div>"
    case 15 => "            <div class='eraser-btn' id='eraserBtn' title='Ластик'>🧹</div>"
    case 16 => "        </div>"
    case 17 => "    </div>"
    case _ => "    <div class='document-container'>"
  }

  /** Document layout: end of the container, reveal and drawing script, end of the page. */
  function DocumentScript(): (lines: seq<string>)
    ensures |lines| == 161
  {
    seq(161, i requires 0 <= i < 161 => DocumentScriptLine(i))
  }

  function DocumentScriptLine(i: nat): string
  {
    match i
    case 0 => "    </div>"
    case 1 => "    <script>"
    case 2 => "        const blocks = document.querySelectorAll('.slide-block');"
    case 3 => "        let currentBlock = 0;"
    case 4 => "        "
    case 5 => "        // Показуємо перший блок одразу"
    case 6 => "        if (blocks.length > 0) {"
    case 7 => "            blocks[0].classList.add('visible');"
    case 8 => "        }"
    case 9 => "        "
    case 10 => "        function showNextBlock() {"
    case 11 => "            if (currentBlock < blocks.length - 1) {"
    case 12 => "                currentBlock++;"
    case 13 => "                blocks[currentBlock].classList.add('visible');"
    case 14 => "                // Прокручуємо до нового блоку"
    case 15 => "                setTimeout(() => {"
    case 16 => "                    blocks[currentBlock].scrollIntoView({ behavior: 'smooth', block: 'start' });"
    case 17 => "                }, 100);"
    case 18 => "            }"
    case 19 => "        }"
    case 20 => "        "
    case 21 => "        // Обробка кліків - тільки на body/document, не на інтерактивних елементах"
    case 22 => "        document.body.addEventListener('click', (e) => {"
    case 23 => "            // Не показуємо наступний блок, якщо клікнули на посилання, кнопку, input, textarea, canvas"
    case 24 => "            const tag = e.target.tagName;"
    case 25 => "            if (tag === 'A' || tag === 'BUTTON' || tag === 'INPUT' || tag === 'TEXTAREA' || tag === 'SELECT' || tag === 'CANVAS') return;"
    case 26 => "            // Перевіряємо, чи клікнули на батьківський елемент з посиланням, кнопкою або canvas"
    case 27 => "            if (e.target.closest('a') || e.target.closest('button') || e.target.closest('canvas')) return;"
    case 28 => "            showNextBlock();"
    case 29 => "        });"
    case 30 => "        "
    case 31 => "        // Обробка клавіш"
    case 32 => "        document.addEventListener('keydown', (e) => {"
    case 33 => "            if (e.key === 'ArrowRight' || e.key === ' ' || e.key === 'Enter') {"
    case 34 => "                e.preventDefault();"
    case 35 => "                showNextBlock();"
    case 36 => "            }"
    case 37 => "        });"
    case 38 => "        "
    case 39 => "        // Підказка для користувача"
    case 40 => "        if (blocks.length > 1) {"
    case 41 => "            const hint = document.createElement('div');"
    case 42 => "            hint.style.cssText = 'position: fixed; bottom: 2rem; right: 2rem; background: rgba(0,0,0,0.7); color: white; padding: 1rem; border-radius: 0.5rem; z-index: 1000; font-size: 0.9rem; pointer-events: none;';"
    case 43 => "            hint.textContent = 'Клікніть або натисніть → для наступного слайду';"
    case 44 => "            document.body.appendChild(hint);"
    case 45 => "            setTimeout(() => hint.remove(), 5000);"
    case 46 => "        }"
    case 47 => "        "
    case 48 => "        // Малювання"
    case 49 => "        const canvas = document.getElementById('drawingCanvas');"
    case 50 => "        const ctx = canvas.getContext('2d');"
    case 51 => "        let isDrawing = false;"
    case 52 => "        let currentColor = '#000000';"
    case 53 => ""
    case 54 => "        function resizeCanvas() {"
    case 55 => "            canvas.width = window.innerWidth;"
    case 56 => "            canvas.height = window.innerHeight;"
    case 57 => "        }"
    case 58 => "        resizeCanvas();"
    case 59 => "        window.addEventListener('resize', resizeCanvas);"
    case 60 => ""
    case 61 => "        let isDrawingMode = false;"
    case 62 => "        let isEraser = false;"
    case 63 => "        "
    case 64 => "        const drawingToggleBtn = document.getElementById('drawingToggleBtn');"
    case 65 => "        const drawingControls = document.getElementById('drawingControls');"
    case 66 => "        "
    case 67 => "        drawingToggleBtn.addEventListener('click', function() {"
    case 68 => "            if (drawingControls.classList.contains('visible')) {"
    case 69 => "                drawingControls.classList.remove('visible');"
    case 70 => "                canvas.classList.remove('drawing');"
    case 71 => "                isDrawingMode = false;"
    case 72 => "            } else {"
    case 73 => "                drawingControls.classList.add('visible');"
    case 74 => "                canvas.classList.add('drawing');"
    case 75 => "                isDrawingMode = true;"
    case 76 => "            }"
    case 77 => "        });"
    case 78 => ""
    case 79 => "        document.getElementById('clearDrawing').addEventListener('click', function() {"
    case 80 => "            ctx.clearRect(0, 0, canvas.width, canvas.height);"
    case 81 => "        });"
    case 82 => ""
    case 83 => "        document.querySelectorAll('.color-btn').forEach(btn => {"
    case 84 => "            btn.addEventListener('click', function() {"
    case 85 => "                document.querySelectorAll('.color-btn').forEach(b => b.classList.remove('active'));"
    case 86 => "                if (document.getElementById('eraserBtn')) {"
    case 87 => "                    document.getElementById('eraserBtn').classList.remove('active');"
    case 88 => "                }"
    case 89 => "                this.classList.add('active');"
    case 90 => "                currentColor = this.getAttribute('data-color');"
    case 91 => "                isEraser = false;"
    case 92 => "            });"
    case 93 => "        });"
    case 94 => ""
    case 95 => "        if (document.getElementById('eraserBtn')) {"
    case 96 => "            document.getElementById('eraserBtn').addEventListener('click', function() {"
    case 97 => "                document.querySelectorAll('.color-btn').forEach(b => b.classList.remove('active'));"
    case 98 => "                this.classList.toggle('active');"
    case 99 => "                isEraser = this.classList.contains('active');"
    case 100 => "            });"
    case 101 => "        }"
    case 102 => ""
    case 103 => "        canvas.addEventListener('mousedown', function(e) {"
    case 104 => "            if (!isDrawingMode) return;"
    case 105 => "            e.stopPropagation();"
    case 106 => "            isDrawing = true;"
    case 107 => "            ctx.beginPath();"
    case 108 => "            ctx.moveTo(e.clientX, e.clientY);"
    case 109 => "            if (isEraser) {"
    case 110 => "                ctx.globalCompositeOperation = 'destination-out';"
    case 111 => "                ctx.lineWidth = 10;"
    case 112 => "            } else {"
    case 113 => "                ctx.globalCompositeOperation = 'source-over';"
    case 114 => "                ctx.strokeStyle = currentColor;"
    case 115 => "                ctx.lineWidth = 3;"
    case 116 => "            }"
    case 117 => "        });"
    case 118 => ""
    case 119 => "        canvas.addEventListener('mousemove', function(e) {"
    case 120 => "            if (!isDrawing) return;"
    case 121 => "            e.stopPropagation();"
    case 122 => "            ctx.lineTo(e.clientX, e.clientY);"
    case 123 => "            ctx.lineCap = 'round';"
    case 124 => "            ctx.stroke();"
    case 125 => "        });"
    case 126 => ""
    case 127 => "        canvas.addEventListener('mouseup', function() {"
    case 128 => "            isDrawing = false;"
    case 129 => "        });"
    case 130 => ""
    case 131 => "        canvas.addEventListener('mouseleave', function() {"
    case 132 => "            isDrawing = false;"
    case 133 => "        });"
    case 134 => ""
    case 135 => "        // Touch events for mobile"
    case 136 => "        canvas.addEventListener('touchstart', function(e) {"
    case 137 => "            if (!isDrawing) return;"
    case 138 => "            e.preventDefault();"
    case 139 => "            const touch = e.touches[0];"
    case 140 => "            ctx.beginPath();"
    case 141 => "            ctx.moveTo(touch.clientX, touch.clientY);"
    case 142 => "        });"
    case 143 => ""
    case 144 => "        canvas.addEventListener('touchmove', function(e) {"
    case 145 => "            if (!isDrawing) return;"
    case 146 => "            e.preventDefault();"
    case 147 => "            const touch = e.touches[0];"
    case 148 => "            ctx.lineTo(touch.clientX, touch.clientY);"
    case 149 => "            ctx.strokeStyle = currentColor;"
    case 150 => "            ctx.lineWidth = 3;"
    case 151 => "            ctx.lineCap = 'round';"
    case 152 => "            ctx.stroke();"
    case 153 => "        });"
    case 154 => ""
    case 155 => "        canvas.addEventListener('touchend', function() {"
    case 156 => "            isDrawing = false;"
    case 157 => "        });"
    case 158 => "    </script>"
    case 159 => "</body>"
    case _ => "</html>"
  }

  /** Full-document layout: document head and base styles. */
  function FullHead(): (lines: seq<string>)
    ensures |lines| == 22
  {
    seq(22, i requires 0 <= i < 22 => FullHeadLine(i))
  }

  function FullHeadLine(i: nat): string
  {
    match i
    case 0 => "<!DOCTYPE html>"
    case 1 => "<html lang='uk'>"
    case 2 => "<head>"
    case 3 => "    <meta charset='UTF-8'>"
    case 4 => "    <meta name='viewport' content='width=device-width, initial-scale=1.0'>"
    case 5 => "    <title>Документ</title>"
    case 6 => "    <link rel='stylesheet' href='https://cdn.jsdelivr.net/npm/@picocss/pico@2/css/pico.min.css'>"
    case 7 => "    <style>"
    case 8 => "        .document-container { max-width: 900px; margin: 0 auto; padding: 2rem; }"
    case 9 => "        .slide-block { margin-bottom: 3rem; padding: 2rem; border-left: 4px solid #0066cc; background: #f8f9fa; border-radius: 0.5rem; }"
    case 10 => "        .slide-block h1 { font-size: 2.5rem; margin-bottom: 1rem; color: #0066cc; }"
    case 11 => "        .slide-block h2 { font-size: 2rem; margin-bottom: 1rem; color: #0066cc; }"
    case 12 => "        .slide-block code { background: #e9ecef; padding: 0.2rem 0.4rem; border-radius: 0.25rem; }"
    case 13 => "        .slide-block pre { background: #e9ecef; padding: 1rem; border-radius: 0.5rem; overflow-x: auto; }"
    case 14 => "        .slide-block .definition { border: 2px solid #333; padding: 1rem; margin: 1rem 0; border-radius: 0.5rem; background: white; }"
    case 15 => "        .slide-block .task { background: #fff3cd; padding: 1rem; border-left: 4px solid #ffc107; margin: 1rem 0; }"
    case 16 => "        .slide-block .table-container { overflow-x: auto; margin: 1rem 0; }"
    case 17 => "        .slide-block table { width: 100%; border-collapse: collapse; }"
    case 18 => "        .slide-block table th, .slide-block table td { border: 1px solid #ddd; padding: 0.5rem; }"
    case 19 => "        .slide-block table th { background: #e9ecef; }"
    case 20 => "        .slide-block .italic { font-style: italic; }"
    case _ => "        .slide-block img { max-width: 100%; height: auto; }"
  }

  /** Full-document layout: styles added for the tutor format. */
  function FullTutorStyles(): (lines: seq<string>)
    ensures |lines| == 9
  {
    seq(9, i requires 0 <= i < 9 => FullTutorStylesLine(i))
  }

  function FullTutorStylesLine(i: nat): string
  {
    match i
    case 0 => "        /* Викладацький формат - розширені стилі */"
    case 1 => "        .slide-block { background: linear-gradient(135deg, #f5f7fa 0%, #c3cfe2 100%); border-left-color: #3f51b5; }"
    case 2 => "        .slide-block h1 { color: #1a237e; text-shadow: 2px 2px 4px rgba(0,0,0,0.1); }"
    case 3 => "        .slide-block h2 { color: #283593; border-bottom: 2px solid #3f51b5; padding-bottom: 0.5rem; }"
    case 4 => "        .slide-block .definition { background: white; box-shadow: 0 4px 6px rgba(0,0,0,0.1); border-left: 5px solid #3f51b5; }"
    case 5 => "        .slide-block .task { background: linear-gradient(135deg, #fff3cd 0%, #ffe082 100%); box-shadow: 0 2px 4px rgba(0,0,0,0.1); }"
    case 6 => "        .slide-block code { background: #263238; color: #aed581; font-weight: bold; }"
    case 7 => "        .slide-block pre { background: #263238; color: #aed581; border: 2px solid #37474f; }"
    case _ => "        .slide-block table { box-shadow: 0 2px 8px rgba(0,0,0,0.1); }"
  }

  /** Full-document layout: end of the head and the block container. */
  function FullBodyOpen(): (lines: seq<string>)
    ensures |lines| == 4
  {
    seq(4, i requires 0 <= i < 4 => FullBodyOpenLine(i))
  }

  function FullBodyOpenLine(i: nat): string
  {
    match i
    case 0 => "    </style>"
    case 1 => "</head>"
    case 2 => "<body>"
    case _ => "    <div class='document-container'>"
  }

  /** Full-document layout: end of the container and of the page. */
  function FullTail(): (lines: seq<string>)
    ensures |lines| == 3
  {
    seq(3, i requires 0 <= i < 3 => FullTailLine(i))
  }

  function FullTailLine(i: nat): string
  {
    match i
    case 0 => "    </div>"
    case 1 => "</body>"
    case _ => "</html>"
  }
}
